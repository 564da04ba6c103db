/** The retrying forwarder on top of the endpoint pool. */
module Forwarder {
  import opened Prelude
  import opened QuotaConfig
  import opened EndpointPool
  import opened PoolQueue
  import opened Cooldown
  import opened Text
  import T = Timestamps

  /** What became of one upstream call. */
  datatype Reply =
    | Unreachable
    | Unreadable(status: int)
    | Answered(status: int, creditExhausted: bool, retryAfter: string, retryDate: Option<int>,
               diagnostic: Option<string>)

  /**
   * One turn of the loop as the environment plays it: what other requests and administrators write before the
   * selection and while the upstream call is in flight, the clock readings of selection and mark, and the reply.
   */
  datatype Turn = Turn(others: seq<Step>, during: seq<Step>, ask: Stamp, mark: Stamp, reply: Reply)

  /** A row of the attempt log. */
  datatype LogRow = LogRow(index: nat, key: nat, status: Option<int>, reason: Option<string>, until: Option<Stamp>,
                           terminal: bool)

  datatype Delivered = Delivered(status: int, networkError: bool, failed: bool)

  function Attempts(s: Settings): nat
    ensures Attempts(s) >= 1
  {
    if s.maxRetries < 1 then DEFAULT_MAX_RETRIES else s.maxRetries
  }

  predicate PlanLimit(provider: string, status: int) {
    provider == TAVILY && status == 432
  }

  function PolicyForResponse(provider: string, reply: Reply, s: Settings): Policy
    requires reply.Answered?
  {
    if provider == FIRECRAWL && reply.status == 402 && reply.creditExhausted
    then Policy(if s.rateLimit <= 0 then DEFAULT_RATE_LIMIT else s.rateLimit, "credit_exhausted", true, true)
    else PolicyForStatus(reply.status, s)
  }

  /** The policy with the Tavily plan limit and the Retry-After header of a 429 taken into account. */
  function Treatment(provider: string, reply: Reply, s: Settings, now: int): Policy
    requires reply.Answered?
  {
    var p := if PlanLimit(provider, reply.status)
             then Policy(if s.rateLimit <= 0 then DEFAULT_RATE_LIMIT else s.rateLimit,
                         "plan_limit_exceeded", true, true)
             else PolicyForResponse(provider, reply, s);
    var ra := ParseRetryAfter(reply.retryAfter, reply.retryDate, now);
    if p.cool && reply.status == 429 && ra.Some? then p.(duration := ra.value) else p
  }

  function NetworkCooldown(s: Settings): int {
    if s.transient <= 0 then DEFAULT_TRANSIENT else s.transient
  }

  /** How long a reply that cools its endpoint lets it rest, counted from the start of the request. */
  function RestTime(provider: string, s: Settings, now: int, reply: Reply): int
    requires !reply.Unreadable?
  {
    if reply.Unreachable? then NetworkCooldown(s) else Treatment(provider, reply, s, now).duration
  }

  /** What the client sees of an answer. */
  function ClientStatus(provider: string, status: int): int {
    if PlanLimit(provider, status) then 429 else status
  }

  /** The health marks one reply leads to: none when the body could not be read, otherwise exactly one. */
  function Marks(provider: string, s: Settings, now: int, format: int -> Stamp, turn: Turn): seq<RowOp> {
    match turn.reply
    case Unreadable(_) => []
    case Unreachable => [Failure(turn.mark, 0, Some(format(now + NetworkCooldown(s))), Some("network_error"))]
    case Answered(status, _, _, _, _) =>
      if MarksSuccess(status) then [Success(turn.mark)]
      else
        var p := Treatment(provider, turn.reply, s, now);
        if p.cool then [Failure(turn.mark, status, Some(format(now + p.duration)), Some(p.reason))]
        else [Failure(turn.mark, status, None, None)]
  }

  /** Another endpoint is tried after this reply, as long as attempts are left. */
  predicate Retried(provider: string, s: Settings, reply: Reply) {
    reply.Unreachable? || (reply.Answered? && !MarksSuccess(reply.status)
                           && (PlanLimit(provider, reply.status) || PolicyForResponse(provider, reply, s).retry))
  }

  /** A turn that reached an endpoint, and the marks it left on its row. */
  datatype Visit = Visit(id: nat, turn: Turn, marks: seq<RowOp>)

  function MarkedSteps(id: nat, marks: seq<RowOp>): seq<Step> {
    seq(|marks|, i requires 0 <= i < |marks| => Update(id, marks[i]))
  }

  /** The writes of one visit, with those of others before it and between its selection and its mark. */
  function VisitSteps(v: Visit): seq<Step> {
    v.turn.others + [Update(v.id, Used(v.turn.ask))] + v.turn.during + MarkedSteps(v.id, v.marks)
  }

  /** The rows when the reply of a visit arrives. */
  function Answering(rows: Rows, v: Visit): Rows {
    ExecRows(UpdateRow(ExecRows(rows, v.turn.others), v.id, Used(v.turn.ask)), v.turn.during)
  }

  /** The rows after the first k visits. */
  function RowsAfter(rows: Rows, visits: seq<Visit>, k: nat): Rows
    requires k <= |visits|
  {
    if k == 0 then rows else ExecRows(RowsAfter(rows, visits, k - 1), VisitSteps(visits[k - 1]))
  }

  /** Every visit went to the endpoint the pool selects at that moment. */
  ghost predicate Trail(rows: Rows, provider: string, visits: seq<Visit>) {
    forall i :: 0 <= i < |visits| ==> TrailAt(rows, provider, visits, i)
  }

  ghost predicate TrailAt(rows: Rows, provider: string, visits: seq<Visit>, i: nat)
    requires i < |visits|
  {
    Choice(ExecRows(RowsAfter(rows, visits, i), visits[i].turn.others), provider,
           visits[i].turn.ask) == Some(visits[i].id)
  }

  /** The status of the last answer so far as the client would see it; 0 when there was none. */
  function LastStatus(provider: string, visits: seq<Visit>): int {
    if visits == [] then 0
    else
      var reply := visits[|visits| - 1].turn.reply;
      if reply.Answered? then ClientStatus(provider, reply.status) else LastStatus(provider, visits[..|visits| - 1])
  }

  lemma VisitRows(rows: Rows, v: Visit)
    requires |v.marks| <= 1
    ensures var u := Answering(rows, v);
      ExecRows(rows, VisitSteps(v)) == if v.marks == [] then u else UpdateRow(u, v.id, v.marks[0])
  {
    var used := [Update(v.id, Used(v.turn.ask))];
    var marked := MarkedSteps(v.id, v.marks);
    ExecSplit(rows, v.turn.others + used + v.turn.during, marked);
    ExecSplit(rows, v.turn.others + used, v.turn.during);
    ExecSplit(rows, v.turn.others, used);
    assert used[1..] == [];
    if v.marks != [] { assert marked == [Update(v.id, v.marks[0])] && marked[1..] == []; }
  }

  lemma TrailGrows(rows: Rows, provider: string, visits: seq<Visit>, v: Visit)
    requires Trail(rows, provider, visits)
    requires Choice(ExecRows(RowsAfter(rows, visits, |visits|), v.turn.others), provider, v.turn.ask) == Some(v.id)
    ensures Trail(rows, provider, visits + [v])
    ensures RowsAfter(rows, visits + [v], |visits| + 1) == ExecRows(RowsAfter(rows, visits, |visits|), VisitSteps(v))
    ensures v.turn.reply.Answered? ==> LastStatus(provider, visits + [v]) == ClientStatus(provider, v.turn.reply.status)
    ensures !v.turn.reply.Answered? ==> LastStatus(provider, visits + [v]) == LastStatus(provider, visits)
  {
    var p := visits + [v];
    SameRows(rows, visits, v, |visits|);
    forall i | 0 <= i < |p| ensures TrailAt(rows, provider, p, i) {
      SameRows(rows, visits, v, i);
      if i < |visits| { assert TrailAt(rows, provider, visits, i); }
    }
    assert p[..|visits|] == visits;
  }

  lemma {:induction false} SameRows(rows: Rows, visits: seq<Visit>, v: Visit, k: nat)
    requires k <= |visits|
    ensures RowsAfter(rows, visits + [v], k) == RowsAfter(rows, visits, k)
    decreases k
  {
    if k > 0 { SameRows(rows, visits, v, k - 1); }
  }

  /** Steps of other parties. */
  method Interfere(repo: KeyRepo, others: seq<Step>)
    modifies repo`rows
    ensures repo.rows == ExecRows(old(repo.rows), others)
  {
    for i := 0 to |others|
      invariant repo.rows == ExecRows(old(repo.rows), others[..i])
    {
      ExecSplit(old(repo.rows), others[..i], [others[i]]);
      assert others[..i + 1] == others[..i] + [others[i]] && [others[i]][1..] == [];
      assert ExecRows(repo.rows, [others[i]]) == NextRows(repo.rows, others[i]);
      repo.rows := NextRows(repo.rows, others[i]);
    }
    assert others[..|others|] == others;
  }

  /** What is known about the visits of one request. */
  ghost predicate Proper(rows: Rows, provider: string, s: Settings, now: int, format: int -> Stamp, turns: seq<Turn>,
                         visits: seq<Visit>)
  {
    && |visits| <= Attempts(s) && |visits| <= |turns|
    && Trail(rows, provider, visits)
    && (forall i :: 0 <= i < |visits| ==> VisitAt(provider, s, now, format, turns, visits, i))
    && (forall i :: 0 <= i < |visits| - 1 ==> RetriedAt(provider, s, visits, i))
  }

  /** The visit plays the turn of its number and leaves the marks of its reply. */
  ghost predicate VisitAt(provider: string, s: Settings, now: int, format: int -> Stamp, turns: seq<Turn>,
                          visits: seq<Visit>, i: nat)
    requires i < |visits| <= |turns|
  {
    visits[i].turn == turns[i] && visits[i].marks == Marks(provider, s, now, format, turns[i])
  }

  ghost predicate RetriedAt(provider: string, s: Settings, visits: seq<Visit>, i: nat)
    requires i < |visits|
  {
    Retried(provider, s, visits[i].turn.reply)
  }

  /** Every reply so far asked for another endpoint. */
  ghost predicate AllRetried(provider: string, s: Settings, visits: seq<Visit>) {
    forall i :: 0 <= i < |visits| ==> RetriedAt(provider, s, visits, i)
  }

  lemma ProperGrows(rows: Rows, provider: string, s: Settings, now: int, format: int -> Stamp, turns: seq<Turn>,
                    visits: seq<Visit>, v: Visit)
    requires Proper(rows, provider, s, now, format, turns, visits) && AllRetried(provider, s, visits)
    requires |visits| < Attempts(s) && |visits| < |turns| && v.turn == turns[|visits|]
             && v.marks == Marks(provider, s, now, format, v.turn)
    requires Choice(ExecRows(RowsAfter(rows, visits, |visits|), v.turn.others), provider, v.turn.ask) == Some(v.id)
    ensures Proper(rows, provider, s, now, format, turns, visits + [v])
  {
    TrailGrows(rows, provider, visits, v);
    var p := visits + [v];
    forall i | 0 <= i < |p| ensures VisitAt(provider, s, now, format, turns, p, i) {
      if i < |visits| { assert VisitAt(provider, s, now, format, turns, visits, i); }
    }
    forall i | 0 <= i < |visits| ensures RetriedAt(provider, s, p, i) {
      assert RetriedAt(provider, s, visits, i);
    }
  }

  /** The log holds one row per mark, numbered from 1, and only the last can be terminal. */
  ghost predicate LogOk(log: seq<LogRow>, visits: seq<Visit>) {
    && |log| <= |visits|
    && (forall i :: 0 <= i < |log| ==> log[i].index == i + 1 && log[i].key == visits[i].id && |visits[i].marks| == 1)
    && (forall i :: |log| <= i < |visits| ==> visits[i].marks == [])
    && (forall i :: 0 <= i < |log| - 1 ==> !log[i].terminal)
  }

  /**
   * With logging on, the log matches the visits, and a row for the last visit is terminal exactly when that visit ends
   * the request.
   */
  ghost predicate Logged(logging: bool, log: seq<LogRow>, visits: seq<Visit>, ends: bool) {
    if logging then LogOk(log, visits) && (log != [] && |log| == |visits|
                                           ==> log[|log| - 1].terminal == ends) else log == []
  }

  ghost predicate RowFor(rows: seq<LogRow>, index: nat, key: nat, terminal: bool) {
    |rows| == 1 && rows[0].index == index && rows[0].key == key && rows[0].terminal == terminal
  }

  lemma LogGrows(logging: bool, log: seq<LogRow>, visits: seq<Visit>, v: Visit, rows: seq<LogRow>, ends: bool)
    requires Logged(logging, log, visits, false) && (logging ==> |log| == |visits|)
    requires v.marks == [] ==> rows == []
    requires v.marks != [] ==> |v.marks| == 1 && (if logging then RowFor(rows, |visits| + 1, v.id, ends) else rows == [])
    ensures Logged(logging, log + rows, visits + [v], ends)
  {
  }

  /** What the last visit decides, if it decides anything. */
  predicate Ends(provider: string, s: Settings, visits: seq<Visit>) {
    visits != [] && (|visits| == Attempts(s) || !Retried(provider, s, visits[|visits| - 1].turn.reply))
  }

  /** The response after a terminal reply. */
  function Deliver(reply: Reply, lastStatus: int): Delivered {
    match reply
    case Unreachable => Delivered(502, true, true)
    case Unreadable(_) => Delivered(502, false, true)
    case Answered(_, _, _, _, _) => Delivered(lastStatus, false, false)
  }

  /** The response to the client, from the visits and, when they do not decide, from the selection that followed. */
  function Response(provider: string, s: Settings, visits: seq<Visit>, noKey: bool): Delivered {
    if Ends(provider, s, visits) then
      Deliver(visits[|visits| - 1].turn.reply, LastStatus(provider, visits))
    else if noKey && LastStatus(provider, visits) != 0 then Delivered(LastStatus(provider, visits), false, false)
    else Delivered(502, false, true)
  }

  /** The selection of one turn, after what others wrote before it. */
  method Pick(repo: KeyRepo, provider: string, turn: Turn) returns (r: Option<Selected>)
    requires PolicyOf(provider).Ok?
    modifies repo`rows
    ensures var u := ExecRows(old(repo.rows), turn.others);
      match Choice(u, provider, turn.ask)
      case None => r.None? && repo.rows == u
      case Some(id) => r.Some? && r.value.id == id && repo.rows == UpdateRow(u, id, Used(turn.ask))
  {
    Interfere(repo, turn.others);
    var selected := repo.SelectEndpoint(provider, turn.ask);
    r := if selected.Ok? then Some(selected.value) else None;
  }

  /** The marks and the log row after a reply; last tells that this was the last attempt. */
  method Settle(repo: KeyRepo, id: nat, provider: string, s: Settings, now: int, format: int -> Stamp, turn: Turn,
                last: bool, index: nat, logging: bool)
    returns (terminal: bool, log: seq<LogRow>)
    requires !turn.reply.Unreadable?
    modifies repo`rows
    ensures |Marks(provider, s, now, format, turn)| == 1
    ensures repo.rows == UpdateRow(old(repo.rows), id, Marks(provider, s, now, format, turn)[0])
    ensures terminal <==> last || !Retried(provider, s, turn.reply)
    ensures if logging then RowFor(log, index, id, terminal) else log == []
  {
    log := [];
    if turn.reply.Unreachable? {
      var coolDur := s.transient;
      if coolDur <= 0 { coolDur := DEFAULT_TRANSIENT; }
      var until := format(now + coolDur);
      repo.MarkFailureWithCooldown(id, turn.mark, 0, Some(until), Some("network_error"));
      if logging { log := [LogRow(index, id, None, Some("network_error"), Some(until), last)]; }
      return last, log;
    }
    var status := turn.reply.status;
    if MarksSuccess(status) {
      repo.MarkSuccess(id, turn.mark);
      if logging { log := [LogRow(index, id, Some(status), None, None, true)]; }
      return true, log;
    }
    var p := PolicyForResponse(provider, turn.reply, s);
    if PlanLimit(provider, status) {
      p := Policy(if s.rateLimit <= 0 then DEFAULT_RATE_LIMIT else s.rateLimit, "plan_limit_exceeded", true, true);
    }
    var until: Option<Stamp>, reason := None, None;
    if p.cool {
      var coolDur := p.duration;
      if status == 429 {
        var ra := ParseRetryAfter(turn.reply.retryAfter, turn.reply.retryDate, now);
        if ra.Some? { coolDur := ra.value; }
      }
      until, reason := Some(format(now + coolDur)), Some(p.reason);
    }
    repo.MarkFailureWithCooldown(id, turn.mark, status, until, reason);
    terminal := !p.retry || last;
    if logging {
      var shown := reason;
      if provider == TAVILY && status == 400 && turn.reply.diagnostic.Some? { shown := turn.reply.diagnostic; }
      log := [LogRow(index, id, Some(status), shown, until, terminal)];
    }
  }

  /** How one turn ended: without an endpoint, with one that has no base URL, or after an upstream call. */
  datatype Took = NoKey | Blank | Reached(terminal: bool, log: seq<LogRow>)

  method TakeTurn(repo: KeyRepo, provider: string, s: Settings, now: int, format: int -> Stamp, turn: Turn, last: bool,
                  index: nat, logging: bool)
    returns (took: Took, ghost visit: Visit)
    requires PolicyOf(provider).Ok?
    modifies repo`rows
    ensures var u := ExecRows(old(repo.rows), turn.others);
      match took
      case NoKey => Choice(u, provider, turn.ask).None? && repo.rows == u
      case Blank =>
        var c := Choice(u, provider, turn.ask);
        c.Some? && repo.rows == UpdateRow(u, c.value, Used(turn.ask))
      case Reached(terminal, log) =>
        && visit.turn == turn && visit.marks == Marks(provider, s, now, format, turn) && |visit.marks| <= 1
        && Choice(u, provider, turn.ask) == Some(visit.id)
        && repo.rows == ExecRows(old(repo.rows), VisitSteps(visit))
        && (terminal <==> last || !Retried(provider, s, turn.reply))
        && (if logging && visit.marks != [] then RowFor(log, index, visit.id, terminal) else log == [])
  {
    visit := Visit(0, turn, []);
    ghost var before := repo.rows;
    var selected := Pick(repo, provider, turn);
    if selected.None? { return NoKey, visit; }
    if TrimSpace(selected.value.baseUrl) == "" { return Blank, visit; }
    var id := selected.value.id;
    Interfere(repo, turn.during);
    visit := Visit(id, turn, Marks(provider, s, now, format, turn));
    if turn.reply.Unreadable? {
      VisitRows(before, visit);
      return Reached(true, []), visit;
    }
    var terminal, log := Settle(repo, id, provider, s, now, format, turn, last, index, logging);
    VisitRows(before, visit);
    return Reached(terminal, log), visit;
  }

  /** The state of the loop between two turns. */
  ghost predicate Going(rows: Rows, rows': Rows, provider: string, s: Settings, now: int, format: int -> Stamp,
                        turns: seq<Turn>, visits: seq<Visit>, logging: bool, log: seq<LogRow>) {
    && Proper(rows, provider, s, now, format, turns, visits) && AllRetried(provider, s, visits)
    && rows' == RowsAfter(rows, visits, |visits|)
    && Logged(logging, log, visits, false) && (logging ==> |log| == |visits|)
  }

  lemma TurnTaken(rows: Rows, rows': Rows, rows'': Rows, provider: string, s: Settings, now: int, format: int -> Stamp,
                  turns: seq<Turn>,
                  visits: seq<Visit>, logging: bool, log: seq<LogRow>, v: Visit, more: seq<LogRow>, terminal: bool)
    requires Going(rows, rows', provider, s, now, format, turns, visits, logging, log)
             && rows'' == ExecRows(rows', VisitSteps(v))
    requires |visits| < Attempts(s) && |visits| < |turns| && v.turn == turns[|visits|]
             && v.marks == Marks(provider, s, now, format, v.turn)
    requires Choice(ExecRows(rows', v.turn.others), provider, v.turn.ask) == Some(v.id) && |v.marks| <= 1
    requires terminal <==> |visits| + 1 == Attempts(s) || !Retried(provider, s, v.turn.reply)
    requires if logging && v.marks != [] then RowFor(more, |visits| + 1, v.id, terminal) else more == []
    ensures !terminal ==> Going(rows, rows'', provider, s, now, format, turns, visits + [v], logging, log + more)
    ensures Proper(rows, provider, s, now, format, turns, visits + [v])
            && rows'' == RowsAfter(rows, visits + [v], |visits| + 1)
    ensures Logged(logging, log + more, visits + [v], terminal) && (terminal <==> Ends(provider, s, visits + [v]))
    ensures LastStatus(provider, visits + [v])
            == if v.turn.reply.Answered? then ClientStatus(provider, v.turn.reply.status) else LastStatus(provider, visits)
  {
    TrailGrows(rows, provider, visits, v);
    ProperGrows(rows, provider, s, now, format, turns, visits, v);
    LogGrows(logging, log, visits, v, more, terminal);
    assert v.marks == [] ==> v.turn.reply.Unreadable?;
  }

  /** The loop stopped at a selection that found no endpoint, or one without a base URL. */
  ghost predicate Left(rows: Rows, rows': Rows, provider: string, turn: Turn, noKey: bool) {
    var u := ExecRows(rows, turn.others);
    var c := Choice(u, provider, turn.ask);
    if noKey then c.None? && rows' == u else c.Some? && rows' == UpdateRow(u, c.value, Used(turn.ask))
  }

  /** How the request ended: by its last visit, or at a selection after the visits. */
  ghost predicate Done(rows: Rows, rows': Rows, provider: string, s: Settings, now: int, format: int -> Stamp,
                       turns: seq<Turn>, visits: seq<Visit>, logging: bool, log: seq<LogRow>, noKey: bool) {
    && Proper(rows, provider, s, now, format, turns, visits)
    && Logged(logging, log, visits, Ends(provider, s, visits))
    && (if Ends(provider, s, visits) then !noKey && rows' == RowsAfter(rows, visits, |visits|)
        else |visits| < |turns| && Left(RowsAfter(rows, visits, |visits|), rows', provider, turns[|visits|], noKey))
  }

  lemma StoppedEarly(rows: Rows, before: Rows, rows': Rows, provider: string, s: Settings, now: int,
                     format: int -> Stamp, turns: seq<Turn>,
                     visits: seq<Visit>, logging: bool, log: seq<LogRow>, noKey: bool)
    requires Going(rows, before, provider, s, now, format, turns, visits, logging, log) && |visits| < |turns|
             && |visits| < Attempts(s)
    requires Left(before, rows', provider, turns[|visits|], noKey)
    ensures Done(rows, rows', provider, s, now, format, turns, visits, logging, log, noKey)
            && !Ends(provider, s, visits)
  {
    if visits != [] { assert RetriedAt(provider, s, visits, |visits| - 1); }
  }

  /**
   * Forward. now is read once, before the loop, and all cooldowns are counted from it. The visits are the upstream
   * calls made; noKey tells that the loop ended because no endpoint was left.
   */
  method Forward(repo: KeyRepo, provider: string, s: Settings, now: int, format: int -> Stamp, turns: seq<Turn>,
                 logging: bool)
    returns (r: Delivered, log: seq<LogRow>, ghost visits: seq<Visit>, noKey: bool)
    requires |turns| >= Attempts(s) && PolicyOf(provider).Ok?
    modifies repo`rows
    ensures Done(old(repo.rows), repo.rows, provider, s, now, format, turns, visits, logging, log, noKey)
    ensures r == Response(provider, s, visits, noKey)
  {
    var maxAttempts := s.maxRetries;
    if maxAttempts < 1 { maxAttempts := DEFAULT_MAX_RETRIES; }
    var lastStatus := 0;
    visits, log, noKey := [], [], false;
    ghost var start := repo.rows;
    for attempt := 0 to maxAttempts
      invariant |visits| == attempt && lastStatus == LastStatus(provider, visits)
      invariant Going(start, repo.rows, provider, s, now, format, turns, visits, logging, log)
      invariant attempt == maxAttempts ==> false
    {
      var turn := turns[attempt];
      ghost var before := repo.rows;
      ghost var visit: Visit;
      var took: Took;
      took, visit := TakeTurn(repo, provider, s, now, format, turn, attempt == maxAttempts - 1, attempt + 1, logging);
      if !took.Reached? {
        noKey := took.NoKey?;
        StoppedEarly(start, before, repo.rows, provider, s, now, format, turns, visits, logging, log, noKey);
        if noKey && lastStatus != 0 { return Delivered(lastStatus, false, false), log, visits, noKey; }
        return Delivered(502, false, true), log, visits, noKey;
      }
      TurnTaken(start, before, repo.rows, provider, s, now, format, turns, visits, logging, log, visit,
                took.log, took.terminal);
      visits, log := visits + [visit], log + took.log;
      if turn.reply.Answered? {
        lastStatus := if PlanLimit(provider, turn.reply.status) then 429 else turn.reply.status;
      }
      if took.terminal {
        r := Deliver(turn.reply, lastStatus);
        return r, log, visits, noKey;
      }
    }
    // the code after the loop is never reached: the last attempt always returns
    assert false;
  }

  /** An endpoint is cooled exactly when another one is worth trying, and never by a success. */
  lemma CoolsExactlyWhenRetried(provider: string, s: Settings, now: int, format: int -> Stamp, turn: Turn)
    requires !turn.reply.Unreadable?
    ensures var marks := Marks(provider, s, now, format, turn);
      |marks| == 1 && (Retried(provider, s, turn.reply) <==> marks[0].Failure? && marks[0].until.Some?)
      && (marks[0].Success? <==> turn.reply.Answered? && MarksSuccess(turn.reply.status))
  {
  }

  // ---------------------------------------------------------------- attempts use different endpoints

  /** The visit left a cooldown that is still running, as SQLite compares text, at the given selection. */
  predicate Rests(v: Visit, ask: Stamp) {
    |v.marks| == 1 && v.marks[0].Failure? && v.marks[0].until.Some? && !LexLess(v.marks[0].until.value, ask)
  }

  /** Nobody else writes to an endpoint once the request has marked it. */
  predicate LeftAlone(visits: seq<Visit>) {
    forall i, k :: 0 <= i < k < |visits| ==>
      Spared(visits[k].turn.others, visits[i].id) && Spared(visits[k].turn.during, visits[i].id)
  }

  predicate Spared(run: seq<Step>, id: nat) {
    forall m :: 0 <= m < |run| ==> run[m].id != id
  }

  predicate RestsThroughout(visits: seq<Visit>) {
    forall i, k :: 0 <= i < k < |visits| ==> Rests(visits[i], visits[k].turn.ask)
  }

  /** The endpoint has this cooldown, or has been deleted. */
  predicate Cools(rows: Rows, id: nat, until: Option<Stamp>) {
    id in rows ==> rows[id].cooldown == until
  }

  lemma {:induction false} Untouched(rows: Rows, run: seq<Step>, id: nat, until: Option<Stamp>)
    requires Cools(rows, id, until) && Spared(run, id)
    ensures Cools(ExecRows(rows, run), id, until)
    decreases |run|
  {
    if run != [] {
      assert run[0].id != id;
      Untouched(NextRows(rows, run[0]), run[1..], id, until);
    }
  }

  /** A visit leaves its cooldown, whatever was written to the row while the call was in flight. */
  lemma VisitLeavesCooldown(rows: Rows, v: Visit)
    requires |v.marks| == 1 && v.marks[0].Failure?
    ensures Cools(ExecRows(rows, VisitSteps(v)), v.id, v.marks[0].until)
  {
    VisitRows(rows, v);
  }

  lemma VisitLeavesOthers(rows: Rows, v: Visit, id: nat, until: Option<Stamp>)
    requires Cools(rows, id, until) && v.id != id && |v.marks| <= 1
    requires Spared(v.turn.others, id) && Spared(v.turn.during, id)
    ensures Cools(ExecRows(rows, VisitSteps(v)), id, until)
  {
    VisitRows(rows, v);
    Untouched(rows, v.turn.others, id, until);
    Untouched(UpdateRow(ExecRows(rows, v.turn.others), v.id, Used(v.turn.ask)), v.turn.during, id, until);
  }

  /** Until another visit or write, a visited endpoint keeps the cooldown its visit left. */
  lemma {:induction false} KeepsCooldown(rows: Rows, visits: seq<Visit>, i: nat, j: nat)
    requires LeftAlone(visits) && i < j <= |visits|
    requires |visits[i].marks| == 1 && visits[i].marks[0].Failure?
    requires forall k :: i < k < j ==> visits[k].id != visits[i].id && |visits[k].marks| <= 1
    ensures Cools(RowsAfter(rows, visits, j), visits[i].id, visits[i].marks[0].until)
    decreases j
  {
    var before := RowsAfter(rows, visits, j - 1);
    if i == j - 1 {
      VisitLeavesCooldown(before, visits[i]);
    } else {
      KeepsCooldown(rows, visits, i, j - 1);
      assert Spared(visits[j - 1].turn.others, visits[i].id);
      VisitLeavesOthers(before, visits[j - 1], visits[i].id, visits[i].marks[0].until);
    }
  }

  /** So it is not selected again while that cooldown is running. */
  lemma {:induction false} NotAgain(rows: Rows, provider: string, visits: seq<Visit>, i: nat, j: nat)
    requires Trail(rows, provider, visits) && LeftAlone(visits) && RestsThroughout(visits) && i < j < |visits|
    ensures visits[i].id != visits[j].id
    decreases j
  {
    forall k | i < k < j ensures visits[k].id != visits[i].id && |visits[k].marks| <= 1 {
      NotAgain(rows, provider, visits, i, k);
      assert Rests(visits[k], visits[j].turn.ask);
    }
    assert Rests(visits[i], visits[j].turn.ask);
    KeepsCooldown(rows, visits, i, j);
    assert Spared(visits[j].turn.others, visits[i].id);
    assert TrailAt(rows, provider, visits, j);
    NotChosen(RowsAfter(rows, visits, j), visits[j].turn, provider, visits[i].id, visits[i].marks[0].until.value);
  }

  lemma NotChosen(rows: Rows, turn: Turn, provider: string, id: nat, until: Stamp)
    requires Cools(rows, id, Some(until)) && !LexLess(until, turn.ask)
    requires Spared(turn.others, id)
    ensures Choice(ExecRows(rows, turn.others), provider, turn.ask) != Some(id)
  {
    Untouched(rows, turn.others, id, Some(until));
  }

  /**
   * The attempts of one request use pairwise different endpoints whenever every cooldown they leave outlasts the
   * request and nobody else rewrites the endpoints it has visited.
   */
  lemma DistinctEndpoints(rows: Rows, provider: string, visits: seq<Visit>)
    requires Trail(rows, provider, visits) && LeftAlone(visits) && RestsThroughout(visits)
    ensures forall i, j :: 0 <= i < j < |visits| ==> visits[i].id != visits[j].id
  {
    forall i, j | 0 <= i < j < |visits| ensures visits[i].id != visits[j].id {
      NotAgain(rows, provider, visits, i, j);
    }
  }

  lemma RetriedMarks(provider: string, s: Settings, now: int, format: int -> Stamp, turn: Turn)
    requires Retried(provider, s, turn.reply)
    ensures var marks := Marks(provider, s, now, format, turn);
      |marks| == 1 && marks[0].Failure? && marks[0].until == Some(format(now + RestTime(provider, s, now, turn.reply)))
  {
  }

  lemma StillRests(format: int -> Stamp, until: int, ask: Stamp, t: nat)
    requires T.Renders(format) && t + T.SECOND <= until && T.Dated(until) && T.IsText(ask, t)
    ensures !LexLess(format(until), ask)
  {
    T.TextsApart(ask, t, format(until), until);
  }

  /** The cooldown this reply asks for ends a second or more after the instant t. */
  predicate Outlasts(provider: string, s: Settings, now: int, reply: Reply, t: nat) {
    !reply.Unreadable? &&
    var until := now + RestTime(provider, s, now, reply);
    t + T.SECOND <= until && T.Dated(until)
  }

  /**
   * The same for every request Forward can serve, in clock readings: t are the readings of the selections, and every
   * cooldown a reply asks for ends a second or more after each later selection.
   */
  lemma DistinctByTheClock(rows: Rows, rows': Rows, provider: string, s: Settings, now: int, format: int -> Stamp,
                           turns: seq<Turn>,
                           visits: seq<Visit>, logging: bool, log: seq<LogRow>, noKey: bool, t: seq<nat>)
    requires Done(rows, rows', provider, s, now, format, turns, visits, logging, log, noKey) && LeftAlone(visits)
    requires T.Renders(format) && |t| == |visits|
    requires forall k :: 0 <= k < |t| ==> T.IsText(turns[k].ask, t[k])
    requires forall i, k :: 0 <= i < k < |t| ==> Outlasts(provider, s, now, turns[i].reply, t[k])
    ensures forall i, j :: 0 <= i < j < |visits| ==> visits[i].id != visits[j].id
  {
    forall i, k | 0 <= i < k < |visits| ensures Rests(visits[i], visits[k].turn.ask) {
      assert VisitAt(provider, s, now, format, turns, visits, i) && VisitAt(provider, s, now, format, turns, visits, k);
      assert RetriedAt(provider, s, visits, i);
      assert Outlasts(provider, s, now, turns[i].reply, t[k]);
      RetriedMarks(provider, s, now, format, turns[i]);
      StillRests(format, now + RestTime(provider, s, now, turns[i].reply), turns[k].ask, t[k]);
    }
    DistinctEndpoints(rows, provider, visits);
  }

  /** Two turns in a row, undisturbed, at the only endpoint of the provider. */
  predicate Undisturbed(rows: Rows, provider: string, id: nat, first: Turn, second: Turn) {
    && id in rows && Eligible(rows[id], provider, first.ask)
    && (forall j :: j in rows && j != id ==> rows[j].provider != provider)
    && first.others == [] && first.during == [] && second.others == []
  }

  /**
   * After a reply worth a retry, the same endpoint is tried again exactly when its cooldown has ended by then, as text.
   */
  lemma TriedAgain(rows: Rows, provider: string, s: Settings, now: int, format: int -> Stamp, id: nat, first: Turn,
                   second: Turn)
    requires Undisturbed(rows, provider, id, first, second) && Attempts(s) >= 2 && Retried(provider, s, first.reply)
    ensures var turns := [first, second];
      var visits := [Visit(id, first, Marks(provider, s, now, format, first)),
                     Visit(id, second, Marks(provider, s, now, format, second))];
      Proper(rows, provider, s, now, format, turns, visits)
      <==> LexLess(format(now + RestTime(provider, s, now, first.reply)), second.ask)
  {
    var v := Visit(id, first, Marks(provider, s, now, format, first));
    var w := Visit(id, second, Marks(provider, s, now, format, second));
    var turns, visits := [first, second], [v, w];
    RetriedMarks(provider, s, now, format, first);
    ChoiceIs(rows, provider, first.ask, id);
    VisitRows(rows, v);
    var u := ExecRows(rows, VisitSteps(v));
    assert RowsAfter(rows, visits, 0) == rows && RowsAfter(rows, visits, 1) == u;
    SoleEndpoint(u, provider, second.ask, id);
    assert TrailAt(rows, provider, visits, 0);
    assert TrailAt(rows, provider, visits, 1) <==> Choice(u, provider, second.ask) == Some(id);
    assert VisitAt(provider, s, now, format, turns, visits, 0) && VisitAt(provider, s, now, format, turns, visits, 1);
    assert RetriedAt(provider, s, visits, 0);
  }

  lemma SoleEndpoint(rows: Rows, provider: string, now: Stamp, id: nat)
    requires id in rows && forall j :: j in rows && j != id ==> rows[j].provider != provider
    ensures Choice(rows, provider, now) == Some(id) <==> Eligible(rows[id], provider, now)
  {
    if Eligible(rows[id], provider, now) { ChoiceIs(rows, provider, now, id); }
  }

  /**
   * So a 429 with Retry-After: 0 makes one request visit the same endpoint twice, as soon as the clock has moved on.
   */
  lemma RetryAfterZero(rows: Rows, provider: string, s: Settings, now: int, format: int -> Stamp, id: nat, first: Turn,
                       second: Turn)
    requires Undisturbed(rows, provider, id, first, second) && Attempts(s) >= 2
    requires first.reply.Answered? && first.reply.status == 429 && first.reply.retryAfter == "0"
             && LexLess(format(now), second.ask)
    ensures var turns := [first, second];
      var visits := [Visit(id, first, Marks(provider, s, now, format, first)),
                     Visit(id, second, Marks(provider, s, now, format, second))];
      Proper(rows, provider, s, now, format, turns, visits)
  {
    ZeroSeconds(first.reply.retryDate, now);
    TriedAgain(rows, provider, s, now, format, id, first, second);
  }

  lemma ZeroSeconds(date: Option<int>, now: int)
    ensures ParseRetryAfter("0", date, now) == Some(0)
  {
    assert TrimSpace("0") == "0";
    assert "0"[..0] == "" && Digits("0") == 0;
  }
}
