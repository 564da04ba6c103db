/** The order in which endpoints are tried is a queue: a failing endpoint moves to its back. */
module PoolQueue {
  import opened Prelude
  import opened QuotaConfig
  import opened EndpointPool
  import opened Text
  import T = Timestamps

  // ---------------------------------------------------------------- the queue behind the rows

  function Ids(rows: Rows, provider: string): set<nat> {
    set id | id in rows && rows[id].provider == provider
  }

  /** q lists exactly these rows, each once, in the order of SelectEndpoint. */
  ghost predicate Lined(rows: Rows, ids: set<nat>, q: seq<nat>) {
    && (forall i :: 0 <= i < |q| ==> q[i] in ids && q[i] in rows)
    && (forall id :: id in ids ==> id in q)
    && (forall i, j :: 0 <= i < j < |q| ==> Before(rows[q[i]].lastFailed, q[i], rows[q[j]].lastFailed, q[j]))
  }

  /** The queue of a provider. */
  ghost predicate IsLine(rows: Rows, provider: string, q: seq<nat>) {
    Lined(rows, Ids(rows, provider), q)
  }

  lemma {:induction false} LineExists(rows: Rows, ids: set<nat>) returns (q: seq<nat>)
    requires forall id :: id in ids ==> id in rows
    ensures Lined(rows, ids, q)
    decreases |ids|
  {
    if ids == {} { return []; }
    var last :| last in ids;
    var first := Smallest(rows, ids, last);
    var rest := LineExists(rows, ids - {first});
    q := [first] + rest;
    forall id | id in ids ensures id in q { if id != first { assert id in rest; } }
  }

  lemma {:induction false} Smallest(rows: Rows, ids: set<nat>, some: nat) returns (first: nat)
    requires some in ids && forall id :: id in ids ==> id in rows
    ensures first in ids
    ensures forall id :: id in ids && id != first ==> Before(rows[first].lastFailed, first, rows[id].lastFailed, id)
    decreases |ids|
  {
    if ids == {some} { return some; }
    assert ids - {some} != {} by { assert ids == (ids - {some}) + {some}; }
    var other :| other in ids - {some};
    var k := Smallest(rows, ids - {some}, other);
    BeforeTotal(rows[some].lastFailed, some, rows[k].lastFailed, k);
    if Before(rows[k].lastFailed, k, rows[some].lastFailed, some) { return k; }
    forall j | j in ids && j != some && j != k ensures Before(rows[some].lastFailed, some, rows[j].lastFailed, j) {
      BeforeTransitive(rows[some].lastFailed, some, rows[k].lastFailed, k, rows[j].lastFailed, j);
    }
    return some;
  }

  /** There is only one such queue. */
  lemma {:induction false} LineIsUnique(rows: Rows, ids: set<nat>, p: seq<nat>, q: seq<nat>)
    requires Lined(rows, ids, p) && Lined(rows, ids, q)
    ensures p == q
    decreases |p|
  {
    if p == [] {
      assert forall id :: id in ids ==> id in p;
    } else {
      assert p[0] in ids;
      SameHead(rows, ids, p, q);
      LinedTail(rows, ids, p);
      LinedTail(rows, ids, q);
      LineIsUnique(rows, ids - {p[0]}, p[1..], q[1..]);
      assert p == [p[0]] + p[1..] && q == [q[0]] + q[1..];
    }
  }

  lemma SameHead(rows: Rows, ids: set<nat>, p: seq<nat>, q: seq<nat>)
    requires Lined(rows, ids, p) && Lined(rows, ids, q) && p != []
    ensures q != [] && p[0] == q[0]
  {
    assert p[0] in q;
    if p[0] != q[0] {
      HeadBefore(rows, ids, p, q[0]);
      HeadBefore(rows, ids, q, p[0]);
      BeforeTotal(rows[p[0]].lastFailed, p[0], rows[q[0]].lastFailed, q[0]);
    }
  }

  lemma HeadBefore(rows: Rows, ids: set<nat>, p: seq<nat>, id: nat)
    requires Lined(rows, ids, p) && id in ids && p != [] && p[0] != id
    ensures Before(rows[p[0]].lastFailed, p[0], rows[id].lastFailed, id)
  {
    assert id in p;
    var j :| 0 < j < |p| && p[j] == id;
  }

  lemma LinedTail(rows: Rows, ids: set<nat>, q: seq<nat>)
    requires Lined(rows, ids, q) && q != []
    ensures Lined(rows, ids - {q[0]}, q[1..])
  {
    var rest := q[1..];
    forall i | 0 <= i < |rest| ensures rest[i] in ids - {q[0]} {
      BeforeTotal(rows[q[0]].lastFailed, q[0], rows[q[0]].lastFailed, q[0]);
      assert Before(rows[q[0]].lastFailed, q[0], rows[q[i + 1]].lastFailed, q[i + 1]);
    }
    forall id | id in ids - {q[0]} ensures id in rest {
      assert id in q;
      var i :| 0 <= i < |q| && q[i] == id;
      assert rest[i - 1] == id;
    }
  }

  /** SelectEndpoint takes the first eligible endpoint of the queue. */
  lemma ChoiceIsFirstInLine(rows: Rows, provider: string, now: Stamp, q: seq<nat>)
    requires IsLine(rows, provider, q)
    ensures Choice(rows, provider, now).None? <==> forall i :: 0 <= i < |q| ==> !Eligible(rows[q[i]], provider, now)
    ensures forall k ::
              0 <= k < |q| && Eligible(rows[q[k]], provider, now)
              && (forall i :: 0 <= i < k ==> !Eligible(rows[q[i]], provider, now))
              ==> Choice(rows, provider, now) == Some(q[k])
  {
    var c := Choice(rows, provider, now);
    if c.Some? { assert c.value in Ids(rows, provider); }
    forall k | 0 <= k < |q| && Eligible(rows[q[k]], provider, now)
      && (forall i :: 0 <= i < k ==> !Eligible(rows[q[i]], provider, now))
      ensures c == Some(q[k])
    {
      assert IsFirst(rows, provider, now, q[k]) by {
        forall j | j in rows && j != q[k] && Eligible(rows[j], provider, now)
          ensures Before(rows[q[k]].lastFailed, q[k], rows[j].lastFailed, j)
        {
          assert j in Ids(rows, provider);
          var i :| 0 <= i < |q| && q[i] == j;
          assert i > k;
        }
      }
      ChoiceIs(rows, provider, now, q[k]);
    }
  }

  // ---------------------------------------------------------------- steps on the queue

  /** A failure with a cooldown, or a manual demotion. */
  predicate Demotes(op: RowOp) {
    op.Demote? || (op.Failure? && op.until.Some?)
  }

  predicate Clears(op: RowOp) {
    op.Success? || op.ResetCooldown? || op.ResetSelection? || op.Rebase? || op.Rekey?
  }

  /** The stamp sorts after every recorded failure of the provider. */
  ghost predicate Newest(rows: Rows, provider: string, stamp: Stamp) {
    forall id :: id in rows && rows[id].provider == provider && rows[id].lastFailed.Some?
      ==> LexLess(rows[id].lastFailed.value, stamp)
  }

  function MovedBack(q: seq<nat>, k: nat): seq<nat>
    requires k < |q|
  {
    q[..k] + q[k + 1..] + [q[k]]
  }

  /** A demotion moves the endpoint to the back of the queue and leaves the order of the others. */
  lemma DemotionMovesBack(rows: Rows, provider: string, q: seq<nat>, k: nat, op: RowOp)
    requires IsLine(rows, provider, q) && k < |q| && Demotes(op) && Newest(rows, provider, op.now)
    ensures IsLine(UpdateRow(rows, q[k], op), provider, MovedBack(q, k))
  {
    var v, x, r := UpdateRow(rows, q[k], op), q[k], q[..k] + q[k + 1..];
    var ids := Ids(rows, provider);
    assert Ids(v, provider) == ids;
    Removed(rows, ids, q, k);
    assert Lined(v, ids - {x}, r) by { assert forall id :: id in ids - {x} ==> v[id] == rows[id]; }
    forall i | 0 <= i < |r| ensures Before(v[r[i]].lastFailed, r[i], v[x].lastFailed, x) {
      assert r[i] in ids - {x} && v[r[i]] == rows[r[i]];
      if rows[r[i]].lastFailed.Some? { LexTotal(rows[r[i]].lastFailed.value, op.now); }
    }
    Appended(v, ids, r, x);
  }

  lemma Removed(rows: Rows, ids: set<nat>, q: seq<nat>, k: nat)
    requires Lined(rows, ids, q) && k < |q|
    ensures Lined(rows, ids - {q[k]}, q[..k] + q[k + 1..])
  {
    var r := q[..k] + q[k + 1..];
    forall i | 0 <= i < |r| ensures r[i] in ids - {q[k]} {
      var a := if i < k then i else i + 1;
      assert r[i] == q[a];
      BeforeTotal(rows[q[k]].lastFailed, q[k], rows[q[k]].lastFailed, q[k]);
    }
    forall id | id in ids - {q[k]} ensures id in r {
      assert id in q;
      StillListed(q, k, id);
    }
    forall i, j | 0 <= i < j < |r| ensures Before(rows[r[i]].lastFailed, r[i], rows[r[j]].lastFailed, r[j]) {
      var a, b := if i < k then i else i + 1, if j < k then j else j + 1;
      assert r[i] == q[a] && r[j] == q[b];
    }
  }

  lemma StillListed(q: seq<nat>, k: nat, id: nat)
    requires k < |q| && id in q && id != q[k]
    ensures id in q[..k] + q[k + 1..]
  {
    var j :| 0 <= j < |q| && q[j] == id;
    assert (q[..k] + q[k + 1..])[if j < k then j else j - 1] == id;
  }

  lemma Appended(rows: Rows, ids: set<nat>, r: seq<nat>, x: nat)
    requires x in ids && x in rows && Lined(rows, ids - {x}, r)
    requires forall i :: 0 <= i < |r| ==> Before(rows[r[i]].lastFailed, r[i], rows[x].lastFailed, x)
    ensures Lined(rows, ids, r + [x])
  {
    var p := r + [x];
    forall id | id in ids ensures id in p { if id != x { assert id in r; } else { assert p[|r|] == x; } }
    forall i, j | 0 <= i < j < |p| ensures Before(rows[p[i]].lastFailed, p[i], rows[p[j]].lastFailed, p[j]) {
      assert p[i] == r[i];
      if j < |r| { assert p[j] == r[j]; }
    }
  }

  /**
   * A success or a reset moves the endpoint into the never-failed head of the queue, and the others keep their order.
   */
  lemma ClearingMovesUp(rows: Rows, provider: string, q: seq<nat>, id: nat, op: RowOp, p: seq<nat>)
    requires IsLine(rows, provider, q) && id in Ids(rows, provider) && Clears(op)
    requires IsLine(UpdateRow(rows, id, op), provider, p)
    ensures Without(p, id) == Without(q, id)
    ensures forall i, j :: 0 <= i < |p| && 0 <= j < |p| && p[i] == id && HasFailed(UpdateRow(rows, id, op), p[j]) ==> i < j
  {
    OthersKeepOrder(rows, provider, q, id, op, p);
    var v := UpdateRow(rows, id, op);
    forall i, j | 0 <= i < |p| && 0 <= j < |p| && p[i] == id && HasFailed(v, p[j]) ensures i < j {
      NeverFailedFirst(v, provider, p, i, j);
    }
  }

  predicate HasFailed(rows: Rows, id: nat) {
    id in rows && rows[id].lastFailed.Some?
  }

  lemma OthersKeepOrder(rows: Rows, provider: string, q: seq<nat>, id: nat, op: RowOp, p: seq<nat>)
    requires IsLine(rows, provider, q) && id in Ids(rows, provider)
    requires IsLine(UpdateRow(rows, id, op), provider, p)
    ensures Without(p, id) == Without(q, id)
  {
    var v := UpdateRow(rows, id, op);
    var ids := Ids(rows, provider);
    assert Ids(v, provider) == ids;
    WithoutLined(rows, ids, q, id);
    WithoutLined(v, ids, p, id);
    SameOrder(rows, v, ids - {id}, Without(p, id));
    LineIsUnique(rows, ids - {id}, Without(p, id), Without(q, id));
  }

  lemma SameOrder(rows: Rows, v: Rows, ids: set<nat>, q: seq<nat>)
    requires Lined(v, ids, q) && forall j :: j in ids ==> j in rows && j in v && v[j].lastFailed == rows[j].lastFailed
    ensures Lined(rows, ids, q)
  {
  }

  /** The never-failed endpoints, and so a cleared one, form the head of every queue. */
  lemma NeverFailedFirst(rows: Rows, provider: string, q: seq<nat>, i: nat, j: nat)
    requires IsLine(rows, provider, q) && i < |q| && j < |q|
    requires rows[q[i]].lastFailed.None? && rows[q[j]].lastFailed.Some?
    ensures i < j
  {
  }

  function Without(q: seq<nat>, id: nat): seq<nat> {
    if q == [] then [] else if q[0] == id then Without(q[1..], id) else [q[0]] + Without(q[1..], id)
  }

  lemma {:induction false} WithoutLined(rows: Rows, ids: set<nat>, q: seq<nat>, id: nat)
    requires Lined(rows, ids, q)
    ensures Lined(rows, ids - {id}, Without(q, id))
    decreases |q|
  {
    if q != [] {
      LinedTail(rows, ids, q);
      var rest := Without(q[1..], id);
      WithoutLined(rows, ids - {q[0]}, q[1..], id);
      if q[0] == id {
        assert ids - {q[0]} - {id} == ids - {id};
      } else {
        WithoutHead(rows, ids, q, id, rest);
      }
    } else {
      assert forall j :: j !in ids;
    }
  }

  lemma WithoutHead(rows: Rows, ids: set<nat>, q: seq<nat>, id: nat, rest: seq<nat>)
    requires Lined(rows, ids, q) && q != [] && q[0] != id
    requires Lined(rows, ids - {q[0]} - {id}, rest)
    ensures Lined(rows, ids - {id}, [q[0]] + rest)
  {
    var p := [q[0]] + rest;
    forall j | j in ids - {id} ensures j in p { if j != q[0] { assert j in rest; } }
    forall i, j | 0 <= i < j < |p| ensures Before(rows[p[i]].lastFailed, p[i], rows[p[j]].lastFailed, p[j]) {
      if i == 0 {
        assert rest[j - 1] in ids;
        var a :| 0 <= a < |q| && q[a] == rest[j - 1];
        assert a > 0;
      } else {
        assert Before(rows[rest[i - 1]].lastFailed, rest[i - 1], rows[rest[j - 1]].lastFailed, rest[j - 1]);
      }
    }
  }

  /** Every other update leaves the queue as it is. */
  lemma OthersKeepLine(rows: Rows, provider: string, q: seq<nat>, id: nat, op: RowOp)
    requires IsLine(rows, provider, q) && !Demotes(op) && !Clears(op)
    ensures IsLine(UpdateRow(rows, id, op), provider, q)
  {
    var v := UpdateRow(rows, id, op);
    assert Ids(v, provider) == Ids(rows, provider);
    assert forall j :: j in rows ==> v[j].lastFailed == rows[j].lastFailed;
  }

  // ---------------------------------------------------------------- fairness over runs

  datatype Step = Update(id: nat, op: RowOp) | Insert(id: nat, e: Endpoint) | Remove(id: nat)

  function NextRows(rows: Rows, s: Step): Rows {
    match s
    case Update(id, op) => UpdateRow(rows, id, op)
    case Insert(id, e) => rows[id := e]
    case Remove(id) => rows - {id}
  }

  function ExecRows(rows: Rows, run: seq<Step>): Rows
    decreases |run|
  {
    if run == [] then rows else ExecRows(NextRows(rows, run[0]), run[1..])
  }

  /** The step gives the endpoint no success, reset or new demotion, and does not replace it. */
  predicate Spares(s: Step, id: nat) {
    s.id == id ==> s.Update? && !Demotes(s.op) && !Clears(s.op)
  }

  predicate DemotesId(s: Step, id: nat) {
    s.Update? && s.id == id && Demotes(s.op)
  }

  /** New rows have not failed yet. */
  predicate FreshRows(s: Step) {
    s.Insert? ==> s.e.lastFailed.None?
  }

  lemma {:induction false} SparedKeeps(rows: Rows, run: seq<Step>, x: nat)
    requires x in rows && forall i :: 0 <= i < |run| ==> Spares(run[i], x)
    ensures var v := ExecRows(rows, run);
      x in v && v[x].lastFailed == rows[x].lastFailed && v[x].provider == rows[x].provider
    decreases |run|
  {
    if run != [] {
      assert Spares(run[0], x);
      SparedKeeps(NextRows(rows, run[0]), run[1..], x);
    }
  }

  /** y, if it is a row of the provider, has failed no later than at the start, if at all. */
  ghost predicate Undemoted(rows: Rows, v: Rows, y: nat) {
    y in v && v[y].lastFailed.Some? ==> y in rows && v[y].lastFailed == rows[y].lastFailed && v[y].provider == rows[y].provider
  }

  lemma {:induction false} UndemotedStays(rows: Rows, u: Rows, run: seq<Step>, y: nat)
    requires Undemoted(rows, u, y)
    requires forall i :: 0 <= i < |run| ==> FreshRows(run[i]) && !DemotesId(run[i], y)
    ensures Undemoted(rows, ExecRows(u, run), y)
    decreases |run|
  {
    if run != [] {
      assert FreshRows(run[0]) && !DemotesId(run[0], y);
      UndemotedStays(rows, NextRows(u, run[0]), run[1..], y);
    }
  }

  /** The stamp of x sorts before the recorded failure of y, the smaller id deciding between equal stamps. */
  predicate SortsBefore(stamp: Stamp, x: nat, rows: Rows, y: nat) {
    y in rows && Before(Some(stamp), x, rows[y].lastFailed, y)
  }

  /**
   * After x was demoted, the run gives it no success, reset or further demotion, does not demote y, and yet at its end
   * x is selected again although y is eligible.
   */
  ghost predicate Overtakes(rows: Rows, x: nat, op: RowOp, run: seq<Step>, provider: string, now: Stamp, y: nat) {
    var v := ExecRows(UpdateRow(rows, x, op), run);
    && (forall i :: 0 <= i < |run| ==> Spares(run[i], x) && FreshRows(run[i]) && !DemotesId(run[i], y))
    && Choice(v, provider, now) == Some(x) && y in v && Eligible(v[y], provider, now)
  }

  lemma OvertakingSorts(rows: Rows, x: nat, op: RowOp, run: seq<Step>, provider: string, now: Stamp, y: nat)
    requires x in rows && x != y && Demotes(op) && Overtakes(rows, x, op, run, provider, now, y)
    ensures SortsBefore(op.now, x, rows, y) && rows[y].provider == provider
  {
    var u := UpdateRow(rows, x, op);
    var v := ExecRows(u, run);
    assert forall i :: 0 <= i < |run| ==> Spares(run[i], x) && FreshRows(run[i]) && !DemotesId(run[i], y);
    SparedKeeps(u, run, x);
    UndemotedStays(rows, u, run, y);
    assert Before(v[x].lastFailed, x, v[y].lastFailed, y);
  }

  /**
   * Fairness: an endpoint that was demoted and is selected again, with no success, reset or further demotion of it in
   * between, is selected only after every other endpoint that is eligible at that moment has been demoted as well,
   * unless the recorded failure of that endpoint sorted after the stamp already.
   */
  lemma Fairness(rows: Rows, x: nat, op: RowOp, run: seq<Step>, provider: string, now: Stamp, y: nat)
    requires x in rows && Demotes(op) && !SortsBefore(op.now, x, rows, y)
    requires forall i :: 0 <= i < |run| ==> Spares(run[i], x) && FreshRows(run[i])
    requires var v := ExecRows(UpdateRow(rows, x, op), run);
      Choice(v, provider, now) == Some(x) && y != x && y in v && Eligible(v[y], provider, now)
    ensures exists i :: 0 <= i < |run| && DemotesId(run[i], y)
  {
    if forall i :: 0 <= i < |run| ==> !DemotesId(run[i], y) {
      OvertakingSorts(rows, x, op, run, provider, now, y);
    }
  }

  lemma {:induction false} ExecSplit(rows: Rows, p: seq<Step>, q: seq<Step>)
    ensures ExecRows(rows, p + q) == ExecRows(ExecRows(rows, p), q)
    decreases |p|
  {
    if p == [] {
      assert p + q == q;
    } else {
      assert (p + q)[0] == p[0] && (p + q)[1..] == p[1..] + q;
      ExecSplit(NextRows(rows, p[0]), p[1..], q);
    }
  }

  lemma {:induction false} RemoveAll(rows: Rows, ids: set<nat>) returns (run: seq<Step>)
    ensures ExecRows(rows, run) == rows - ids
    ensures forall i :: 0 <= i < |run| ==> run[i].Remove? && run[i].id in ids
    decreases |ids|
  {
    if ids == {} {
      run := [];
      assert rows - ids == rows;
    } else {
      var id :| id in ids;
      var rest := RemoveAll(rows - {id}, ids - {id});
      run := [Remove(id)] + rest;
      assert run[1..] == rest && rows - {id} - (ids - {id}) == rows - ids;
    }
  }

  /** Three updates that make a row eligible without touching its place in the queue. */
  function Readied(id: nat, now: Stamp): seq<Step> {
    [Update(id, Restore), Update(id, SetEnabled(true)), Update(id, Failure(now, 0, None, None))]
  }

  lemma ReadiedRow(rows: Rows, id: nat, now: Stamp)
    requires id in rows
    ensures var v := ExecRows(rows, Readied(id, now));
      v.Keys == rows.Keys && (forall j :: j in rows && j != id ==> v[j] == rows[j])
        && v[id].lastFailed == rows[id].lastFailed
      && v[id].provider == rows[id].provider && Eligible(v[id], rows[id].provider, now)
  {
    var s := Readied(id, now);
    assert s[1..] == [s[1], s[2]] && [s[1], s[2]][1..] == [s[2]] && [s[2]][1..] == [];
    var r1 := NextRows(rows, s[0]);
    var r2 := NextRows(r1, s[1]);
    var r3 := NextRows(r2, s[2]);
    assert ExecRows(r2, [s[2]]) == r3;
    assert ExecRows(r1, [s[1], s[2]]) == r3;
  }

  /** When the failure of y sorts after the stamp of x, some run overtakes it. */
  lemma SortingOvertakes(rows: Rows, x: nat, op: RowOp, provider: string, y: nat, now: Stamp) returns (run: seq<Step>)
    requires x in rows && x != y && Demotes(op) && rows[x].provider == provider
    requires SortsBefore(op.now, x, rows, y) && rows[y].provider == provider
    ensures Overtakes(rows, x, op, run, provider, now, y)
  {
    var u := UpdateRow(rows, x, op);
    var others := u.Keys - {x, y};
    var removes := RemoveAll(u, others);
    var u1 := u - others;
    ReadiedRow(u1, x, now);
    var u2 := ExecRows(u1, Readied(x, now));
    ReadiedRow(u2, y, now);
    var v := ExecRows(u2, Readied(y, now));
    var tail := Readied(x, now) + Readied(y, now);
    run := removes + tail;
    assert ExecRows(u, run) == v by {
      ExecSplit(u, removes, tail);
      ExecSplit(u1, Readied(x, now), Readied(y, now));
    }
    OnlyTwo(v, provider, now, x, y);
    forall i | 0 <= i < |run| ensures Spares(run[i], x) && FreshRows(run[i]) && !DemotesId(run[i], y) {
      if i >= |removes| { Harmless(x, y, now, i - |removes|); }
    }
  }

  lemma Harmless(x: nat, y: nat, now: Stamp, i: nat)
    requires i < 6
    ensures var s := (Readied(x, now) + Readied(y, now))[i]; s.Update? && !Demotes(s.op) && !Clears(s.op)
  {
  }

  lemma OnlyTwo(v: Rows, provider: string, now: Stamp, x: nat, y: nat)
    requires v.Keys == {x, y} && Eligible(v[x], provider, now) && Before(v[x].lastFailed, x, v[y].lastFailed, y)
    ensures Choice(v, provider, now) == Some(x)
  {
    ChoiceIs(v, provider, now, x);
  }

  /**
   * Exactly when fairness can fail between two endpoints of a provider: some run selects a demoted x again over an
   * eligible y that was not demoted since, if and only if the recorded failure of y sorts after the stamp of x.
   */
  lemma FairnessExactly(rows: Rows, x: nat, op: RowOp, provider: string, y: nat)
    requires x in rows && x != y && Demotes(op) && rows[x].provider == provider && y in rows
             && rows[y].provider == provider
    ensures (exists run, now :: Overtakes(rows, x, op, run, provider, now, y)) <==> SortsBefore(op.now, x, rows, y)
  {
    if exists run, now :: Overtakes(rows, x, op, run, provider, now, y) {
      var run, now :| Overtakes(rows, x, op, run, provider, now, y);
      OvertakingSorts(rows, x, op, run, provider, now, y);
    }
    if SortsBefore(op.now, x, rows, y) {
      var run := SortingOvertakes(rows, x, op, provider, y, op.now);
    }
  }

  /**
   * The same in clock time, for a failure of y read at u and a demotion of x read at t, not earlier: fairness can fail
   * if and only if both lie in one second and the digits of t continue those of u, or the readings are equal and x has
   * the smaller id.
   */
  lemma FairnessByTheClock(rows: Rows, x: nat, op: RowOp, provider: string, y: nat, t: nat, u: nat)
    requires x in rows && x != y && Demotes(op) && rows[x].provider == provider && y in rows
             && rows[y].provider == provider
    requires u <= t && T.Dated(t) && T.IsText(op.now, t)
    requires rows[y].lastFailed.Some? && T.IsText(rows[y].lastFailed.value, u)
    ensures (exists run, now :: Overtakes(rows, x, op, run, provider, now, y))
            <==> (t == u && x < y)
                 || (u < t && t / T.SECOND == u / T.SECOND && T.Truncates(9, u % T.SECOND, t % T.SECOND))
  {
    FairnessExactly(rows, x, op, provider, y);
    SortsByTheClock(rows, x, op.now, y, t, u);
  }

  lemma SortsByTheClock(rows: Rows, x: nat, stamp: Stamp, y: nat, t: nat, u: nat)
    requires y in rows && rows[y].lastFailed.Some? && u <= t && T.Dated(t)
    requires T.IsText(stamp, t) && T.IsText(rows[y].lastFailed.value, u)
    ensures SortsBefore(stamp, x, rows, y)
            <==> (t == u && x < y) || (u < t && t / T.SECOND == u / T.SECOND
                                       && T.Truncates(9, u % T.SECOND, t % T.SECOND))
  {
    T.TextsCompared(stamp, t, rows[y].lastFailed.value, u);
  }

  /** An endpoint that has never failed is never overtaken. */
  lemma NeverFailedIsNotOvertaken(rows: Rows, x: nat, op: RowOp, provider: string, y: nat, run: seq<Step>, now: Stamp)
    requires x in rows && x != y && Demotes(op) && !HasFailed(rows, y)
    ensures !Overtakes(rows, x, op, run, provider, now, y)
  {
    if Overtakes(rows, x, op, run, provider, now, y) { OvertakingSorts(rows, x, op, run, provider, now, y); }
  }

  /**
   * The cooling test in clock time: an endpoint whose cooldown ends at u is eligible at t exactly when the text of u
   * sorts before that of t, so in the second of its end it may still be, or already have been, excluded.
   */
  lemma EligibleByTheClock(e: Endpoint, provider: string, now: Stamp, t: nat, u: nat)
    requires e.provider == provider && e.enabled && !e.archived && e.cooldown.Some?
    requires T.Dated(t) && T.Dated(u) && T.IsText(now, t) && T.IsText(e.cooldown.value, u)
    ensures Eligible(e, provider, now)
            <==> u / T.SECOND < t / T.SECOND
                 || (u / T.SECOND == t / T.SECOND && T.FractionBefore(9, u % T.SECOND, t % T.SECOND))
    ensures u < t && !Eligible(e, provider, now)
            <==> u < t && u / T.SECOND == t / T.SECOND && T.Truncates(9, u % T.SECOND, t % T.SECOND)
    ensures t <= u && Eligible(e, provider, now)
            <==> t < u && u / T.SECOND == t / T.SECOND && T.Truncates(9, t % T.SECOND, u % T.SECOND)
  {
    T.TextsOrdered(e.cooldown.value, u, now, t);
    if u < t { T.TextsCompared(now, t, e.cooldown.value, u); } else { T.TextsCompared(e.cooldown.value, u, now, t); }
    LexTotal(e.cooldown.value, now);
  }

  /**
   * The stamps of a clock: a reading sorts after all earlier ones except those of its second whose digits it continues.
   */
  lemma NewestByTheClock(rows: Rows, provider: string, times: map<nat, nat>, t: nat)
    requires T.Dated(t)
    requires forall id :: id in rows && rows[id].provider == provider && rows[id].lastFailed.Some? ==>
      id in times && times[id] < t && T.Dated(times[id]) && rows[id].lastFailed.value == T.Rfc3339Nano(times[id])
    ensures Newest(rows, provider, T.Rfc3339Nano(t))
            <==> forall id :: id in rows && rows[id].provider == provider && rows[id].lastFailed.Some? ==>
                   !(times[id] / T.SECOND == t / T.SECOND && T.Truncates(9, times[id] % T.SECOND, t % T.SECOND))
  {
    forall id | id in rows && rows[id].provider == provider && rows[id].lastFailed.Some?
      ensures LexLess(rows[id].lastFailed.value, T.Rfc3339Nano(t))
              <==> !(times[id] / T.SECOND == t / T.SECOND && T.Truncates(9, times[id] % T.SECOND, t % T.SECOND))
    {
      T.LaterText(times[id], t);
    }
  }

  /**
   * Inside one second fairness can fail: 1 fails half a second past the minute and 2 a hundredth of a second later;
   * the later text sorts first, so 2 is selected again although 1 has waited longer.
   */
  lemma UnfairInsideOneSecond(e: Endpoint)
    requires e.provider == GROK && e.enabled && !e.archived && e.cooldown.None? && e.lastFailed.None?
    ensures var rows := UpdateRow(map[1 := e, 2 := e], 1, Demote("2026-01-01T00:00:00.5Z"));
      Choice(UpdateRow(rows, 2, Demote("2026-01-01T00:00:00.51Z")), GROK, "2026-01-01T00:00:01Z") == Some(2)
  {
    ShorterIsGreater();
    LaterTextFirst(e, "2026-01-01T00:00:00.5Z", "2026-01-01T00:00:00.51Z", "2026-01-01T00:00:01Z");
  }

  lemma ShorterIsGreater()
    ensures LexLess("2026-01-01T00:00:00.51Z", "2026-01-01T00:00:00.5Z")
  {
    var head := "2026-01-01T00:00:00.5";
    assert "2026-01-01T00:00:00.5Z" == head + "Z" && "2026-01-01T00:00:00.51Z" == head + "1Z";
    LexConcat(head, head, "1Z", "Z");
  }

  lemma LaterTextFirst(e: Endpoint, early: Stamp, late: Stamp, now: Stamp)
    requires e.provider == GROK && e.enabled && !e.archived && e.cooldown.None? && LexLess(late, early)
    ensures Choice(UpdateRow(UpdateRow(map[1 := e, 2 := e], 1, Demote(early)), 2, Demote(late)), GROK, now) == Some(2)
  {
    var v := UpdateRow(UpdateRow(map[1 := e, 2 := e], 1, Demote(early)), 2, Demote(late));
    LexTotal(late, early);
    assert v[1].lastFailed == Some(early) && v[2].lastFailed == Some(late);
    ChoiceIs(v, GROK, now, 2);
  }

  // ---------------------------------------------------------------- rotation

  /** One round of select and fail: the clock of the selection, of the failure mark, and the end of the cooldown. */
  datatype Tick = Tick(ask: Stamp, fail: Stamp, until: Stamp)

  /** The state after one round that selects id. */
  function Round(rows: Rows, id: nat, t: Tick, status: int, reason: string): Rows {
    UpdateRow(UpdateRow(rows, id, Used(t.ask)), id, Failure(t.fail, status, Some(t.until), Some(reason)))
  }

  /** The endpoints that sequential select-then-fail rounds visit. */
  ghost function Visits(rows: Rows, provider: string, ticks: seq<Tick>, status: int, reason: string): seq<nat>
    decreases |ticks|
  {
    if ticks == [] then []
    else
      match Choice(rows, provider, ticks[0].ask)
      case None => []
      case Some(id) => [id] + Visits(Round(rows, id, ticks[0], status, reason), provider, ticks[1..], status, reason)
  }

  /** Cooldowns are over by the next selection, and failure stamps increase. */
  ghost predicate Steady(ticks: seq<Tick>) {
    forall i, j :: 0 <= i < j < |ticks| ==> LexLess(ticks[i].until, ticks[j].ask) && LexLess(ticks[i].fail, ticks[j].fail)
  }

  ghost predicate Fit(e: Endpoint, ticks: seq<Tick>) {
    e.enabled && !e.archived
    && (e.cooldown.Some? ==> forall j :: 0 <= j < |ticks| ==> LexLess(e.cooldown.value, ticks[j].ask))
    && (e.lastFailed.Some? ==> forall j :: 0 <= j < |ticks| ==> LexLess(e.lastFailed.value, ticks[j].fail))
  }

  ghost predicate AllFit(rows: Rows, provider: string, ticks: seq<Tick>) {
    forall id :: id in rows && rows[id].provider == provider ==> Fit(rows[id], ticks)
  }

  lemma RoundMovesBack(rows: Rows, provider: string, q: seq<nat>, ticks: seq<Tick>, status: int, reason: string)
    requires IsLine(rows, provider, q) && q != [] && ticks != [] && AllFit(rows, provider, ticks) && Steady(ticks)
    ensures Choice(rows, provider, ticks[0].ask) == Some(q[0])
    ensures var v := Round(rows, q[0], ticks[0], status, reason);
      IsLine(v, provider, q[1..] + [q[0]]) && AllFit(v, provider, ticks[1..])
  {
    var t := ticks[0];
    assert q[0] in Ids(rows, provider);
    assert Eligible(rows[q[0]], provider, t.ask) by { assert Fit(rows[q[0]], ticks); }
    ChoiceIsFirstInLine(rows, provider, t.ask, q);
    var u := UpdateRow(rows, q[0], Used(t.ask));
    OthersKeepLine(rows, provider, q, q[0], Used(t.ask));
    assert Newest(u, provider, t.fail) by {
      forall id | id in u && u[id].provider == provider && u[id].lastFailed.Some?
        ensures LexLess(u[id].lastFailed.value, t.fail)
      {
        assert Fit(rows[id], ticks);
      }
    }
    DemotionMovesBack(u, provider, q, 0, Failure(t.fail, status, Some(t.until), Some(reason)));
    assert MovedBack(q, 0) == q[1..] + [q[0]];
    FitLater(rows, provider, q[0], ticks, status, reason);
  }

  lemma FitLater(rows: Rows, provider: string, id: nat, ticks: seq<Tick>, status: int, reason: string)
    requires ticks != [] && AllFit(rows, provider, ticks) && Steady(ticks)
    ensures AllFit(Round(rows, id, ticks[0], status, reason), provider, ticks[1..])
  {
    var v := Round(rows, id, ticks[0], status, reason);
    forall j | j in v && v[j].provider == provider ensures Fit(v[j], ticks[1..]) {
      assert Fit(rows[j], ticks);
    }
  }

  /**
   * With a fixed set of n endpoints, cooldowns that are over by the next selection and nothing but cooling failures,
   * the i-th round visits the endpoint at place i modulo n of the queue, whatever the queue was at the start.
   */
  lemma {:induction false} RoundRobin(rows: Rows, provider: string, q: seq<nat>, ticks: seq<Tick>, status: int,
                                      reason: string, i: nat)
    requires IsLine(rows, provider, q) && q != [] && AllFit(rows, provider, ticks) && Steady(ticks) && i < |ticks|
    ensures var visits := Visits(rows, provider, ticks, status, reason); i < |visits| && visits[i] == q[i % |q|]
    decreases |ticks|
  {
    RoundMovesBack(rows, provider, q, ticks, status, reason);
    FirstVisit(rows, provider, ticks, status, reason, q[0]);
    var v := Round(rows, q[0], ticks[0], status, reason);
    var rest := Visits(v, provider, ticks[1..], status, reason);
    var p := q[1..] + [q[0]];
    if i > 0 {
      SteadyLater(ticks);
      RoundRobin(v, provider, p, ticks[1..], status, reason, i - 1);
    }
    VisitedNext(Visits(rows, provider, ticks, status, reason), rest, q, p, i);
  }

  /** Rounds that go on round the queue with its head moved to the back go round the queue as it was. */
  lemma VisitedNext(visits: seq<nat>, rest: seq<nat>, q: seq<nat>, p: seq<nat>, i: nat)
    requires q != [] && p == q[1..] + [q[0]] && visits == [q[0]] + rest
    requires i > 0 ==> i - 1 < |rest| && rest[i - 1] == p[(i - 1) % |p|]
    ensures i < |visits| && visits[i] == q[i % |q|]
  {
    if i == 0 { assert 0 % |q| == 0; } else { NextPlace(q, p, i - 1); }
  }

  lemma FirstVisit(rows: Rows, provider: string, ticks: seq<Tick>, status: int, reason: string, id: nat)
    requires ticks != [] && Choice(rows, provider, ticks[0].ask) == Some(id)
    ensures Visits(rows, provider, ticks, status, reason)
            == [id] + Visits(Round(rows, id, ticks[0], status, reason), provider, ticks[1..], status, reason)
  {
  }

  lemma SteadyLater(ticks: seq<Tick>)
    requires ticks != [] && Steady(ticks)
    ensures Steady(ticks[1..])
  {
  }

  lemma NextPlace(q: seq<nat>, p: seq<nat>, i: nat)
    requires q != [] && p == q[1..] + [q[0]]
    ensures p[i % |q|] == q[(i + 1) % |q|]
  {
    var n, r := |q|, i % |q|;
    if r + 1 < n {
      assert (i + 1) % n == r + 1 by { SuccMod(i, n); }
    } else {
      assert (i + 1) % n == 0 by { SuccMod(i, n); }
    }
  }

  lemma SuccMod(i: nat, n: nat)
    requires n > 0
    ensures (i + 1) % n == if i % n + 1 < n then i % n + 1 else 0
  {
    var k, r := i / n, i % n;
    assert i == k * n + r;
    if r + 1 < n { DivUnique(i + 1, n, k, r + 1); } else { assert i + 1 == (k + 1) * n; DivUnique(i + 1, n, k + 1, 0); }
  }

  /** The clock readings of one round. */
  datatype Reading = Reading(ask: nat, fail: nat, until: nat)

  ghost predicate Reads(t: Tick, r: Reading) {
    && T.Dated(r.ask) && T.Dated(r.fail) && T.Dated(r.until)
    && T.IsText(t.ask, r.ask) && T.IsText(t.fail, r.fail) && T.IsText(t.until, r.until)
  }

  /**
   * Every cooldown is over at the later selections, and later failures sort later; so in particular when the readings
   * of different rounds fall into different seconds.
   */
  ghost predicate SteadyReadings(r: seq<Reading>) {
    forall i, j :: 0 <= i < j < |r| ==> T.TextBefore(r[i].until, r[j].ask) && T.TextBefore(r[i].fail, r[j].fail)
  }

  /** Exactly these readings give stamps under which the rounds rotate. */
  lemma SteadyByTheClock(ticks: seq<Tick>, r: seq<Reading>)
    requires |r| == |ticks| && forall k :: 0 <= k < |r| ==> Reads(ticks[k], r[k])
    ensures Steady(ticks) <==> SteadyReadings(r)
  {
    forall i, j | 0 <= i < j < |r|
      ensures LexLess(ticks[i].until, ticks[j].ask) <==> T.TextBefore(r[i].until, r[j].ask)
      ensures LexLess(ticks[i].fail, ticks[j].fail) <==> T.TextBefore(r[i].fail, r[j].fail)
    {
      assert Reads(ticks[i], r[i]) && Reads(ticks[j], r[j]);
      T.TextsOrdered(ticks[i].until, r[i].until, ticks[j].ask, r[j].ask);
      T.TextsOrdered(ticks[i].fail, r[i].fail, ticks[j].fail, r[j].fail);
    }
  }

  /** The stamps an endpoint has at the start are readings that have passed: ended and failed at these instants. */
  ghost predicate Rested(e: Endpoint, ended: nat, failed: nat, r: seq<Reading>) {
    && e.enabled && !e.archived && T.Dated(ended) && T.Dated(failed)
    && (e.cooldown.Some? ==> T.IsText(e.cooldown.value, ended)
                             && forall j :: 0 <= j < |r| ==> T.TextBefore(ended, r[j].ask))
    && (e.lastFailed.Some? ==> T.IsText(e.lastFailed.value, failed)
                               && forall j :: 0 <= j < |r| ==> T.TextBefore(failed, r[j].fail))
  }

  lemma RestedFits(e: Endpoint, ended: nat, failed: nat, ticks: seq<Tick>, r: seq<Reading>)
    requires |r| == |ticks| && Rested(e, ended, failed, r) && forall k :: 0 <= k < |r| ==> Reads(ticks[k], r[k])
    ensures Fit(e, ticks)
  {
    forall j | 0 <= j < |r|
      ensures e.cooldown.Some? ==> LexLess(e.cooldown.value, ticks[j].ask)
      ensures e.lastFailed.Some? ==> LexLess(e.lastFailed.value, ticks[j].fail)
    {
      assert Reads(ticks[j], r[j]);
      if e.cooldown.Some? { T.TextsOrdered(e.cooldown.value, ended, ticks[j].ask, r[j].ask); }
      if e.lastFailed.Some? { T.TextsOrdered(e.lastFailed.value, failed, ticks[j].fail, r[j].fail); }
    }
  }

  /** Rotation in clock readings; ended and failed give the readings behind the stamps the endpoints begin with. */
  lemma RoundRobinByTheClock(rows: Rows, provider: string, q: seq<nat>, ticks: seq<Tick>, r: seq<Reading>,
                             ended: nat -> nat, failed: nat -> nat, status: int, reason: string, i: nat)
    requires IsLine(rows, provider, q) && q != [] && i < |ticks| == |r| && SteadyReadings(r)
    requires forall k :: 0 <= k < |r| ==> Reads(ticks[k], r[k])
    requires forall id :: id in rows && rows[id].provider == provider ==> Rested(rows[id], ended(id), failed(id), r)
    ensures var visits := Visits(rows, provider, ticks, status, reason); i < |visits| && visits[i] == q[i % |q|]
  {
    SteadyByTheClock(ticks, r);
    forall id | id in rows && rows[id].provider == provider ensures Fit(rows[id], ticks) {
      RestedFits(rows[id], ended(id), failed(id), ticks, r);
    }
    RoundRobin(rows, provider, q, ticks, status, reason, i);
  }

  /** So any n consecutive rounds visit n different endpoints: each exactly once. */
  lemma EachOncePerCycle(rows: Rows, provider: string, q: seq<nat>, ticks: seq<Tick>, status: int, reason: string,
                         i: nat, j: nat)
    requires IsLine(rows, provider, q) && q != [] && AllFit(rows, provider, ticks) && Steady(ticks)
    requires i < j < |ticks| && j < i + |q|
    ensures var visits := Visits(rows, provider, ticks, status, reason); j < |visits| && visits[i] != visits[j]
  {
    RoundRobin(rows, provider, q, ticks, status, reason, i);
    RoundRobin(rows, provider, q, ticks, status, reason, j);
    OtherMod(i, j, |q|);
    BeforeTotal(rows[q[i % |q|]].lastFailed, q[i % |q|], rows[q[i % |q|]].lastFailed, q[i % |q|]);
    if i % |q| < j % |q| {
      assert Before(rows[q[i % |q|]].lastFailed, q[i % |q|], rows[q[j % |q|]].lastFailed, q[j % |q|]);
    } else {
      assert Before(rows[q[j % |q|]].lastFailed, q[j % |q|], rows[q[i % |q|]].lastFailed, q[i % |q|]);
    }
  }

  lemma OtherMod(i: nat, j: nat, n: nat)
    requires n > 0 && i < j < i + n
    ensures i % n != j % n
  {
    var a, b := i / n, j / n;
    assert i == a * n + i % n && j == b * n + j % n;
    if b <= a { Scale(b, a, n); } else { Scale(a + 1, b, n); }
  }
}
