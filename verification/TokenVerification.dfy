/** The verification endpoint reads the tables three times; other steps may run in between. */
module TokenVerification {
  import opened TokenTables
  import opened TokenProtocol
  import opened TokenInvariant
  import opened TokenTheorems

  ghost predicate NoRestart(run: seq<Action>) {
    forall i :: 0 <= i < |run| ==> !run[i].Restart?
  }

  lemma {:induction false} RunMonotone(w: World, run: seq<Action>)
    ensures w.rows.nextKey <= Exec(w, run).rows.nextKey && w.now <= Exec(w, run).now && w.used <= Exec(w, run).used
    decreases |run|
  {
    if run != [] {
      StepMonotone(w, run[0]);
      RunMonotone(Next(w, run[0]), run[1..]);
    }
  }

  lemma {:induction false} RunAudience(w: World, run: seq<Action>)
    requires NoRestart(run)
    ensures Exec(w, run).audience == w.audience
    decreases |run|
  {
    if run != [] {
      var a := run[0];
      if !a.MintGrant? && !a.Refresh? { OtherSteps(w, a); }
      RunAudience(Next(w, a), run[1..]);
    }
  }

  /** Without a restart, a grant row of an already issued key was there from the beginning, unchanged. */
  lemma {:induction false} GrantWasThere(w: World, run: seq<Action>, h: Token)
    requires Inv(w) && LegalRun(w, run) && NoRestart(run)
    requires h in Exec(w, run).rows.grants && Exec(w, run).rows.grants[h].key < w.rows.nextKey
    ensures h in w.rows.grants && w.rows.grants[h] == Exec(w, run).rows.grants[h]
    decreases |run|
  {
    if run != [] {
      var a, v := run[0], Next(w, run[0]);
      StepInv(w, a);
      StepMonotone(w, a);
      GrantWasThere(v, run[1..], h);
      GrantOrigin(w, a, h);
    }
  }

  /** What the three reads answer: Lookup, then the grant's audience, then CheckOAuthGrant. */
  ghost predicate Passes(w1: World, w2: World, w3: World, k: nat) {
    KeyUsable(w1.rows, k) && (w1.rows.keys[k].owned ==> Bound(w2, k) && Unexpired(w3, k))
  }

  /**
   * Although the three reads may see three different states, a key that passes them was acceptable, as a whole,
   * at the moment of the first read; a restart cannot fall in between because it ends the request.
   */
  lemma VerificationLinearizes(w0: World, run: seq<Action>, w1: World, run2: seq<Action>, run3: seq<Action>, k: nat)
    requires Reached(w0, run, w1) && LegalRun(w1, run2) && NoRestart(run2) && NoRestart(run3)
    requires LegalRun(Exec(w1, run2), run3)
    requires Passes(w1, Exec(w1, run2), Exec(Exec(w1, run2), run3), k)
    ensures Accepted(w1, k)
  {
    ReachedInv(w0, run, w1);
    assert KeyOk(k, w1.rows.keys[k], w1.past);
    if w1.rows.keys[k].owned {
      var w2 := Exec(w1, run2);
      var w3 := Exec(w2, run3);
      RunInv(w1, run2);
      RunAudience(w1, run2);
      RunMonotone(w1, run2);
      RunMonotone(w2, run3);
      var h :| h in w2.rows.grants && w2.rows.grants[h].key == k && w2.rows.grants[h].resource == w2.audience.value;
      GrantWasThere(w1, run2, h);
      var j :| j in w3.rows.grants && w3.rows.grants[j].key == k && w3.now <= w3.rows.grants[j].accessExpires;
      GrantWasThere(w2, run3, j);
      GrantWasThere(w1, run2, j);
    }
  }

  /** Some verification that starts in this state, whatever other steps interleave with it, passes the key. */
  ghost predicate CanPass(w: World, k: nat) {
    exists run2, run3 :: LegalRun(w, run2) && NoRestart(run2) && LegalRun(Exec(w, run2), run3) && NoRestart(run3)
                         && Passes(w, Exec(w, run2), Exec(Exec(w, run2), run3), k)
  }

  /**
   * A key can pass a verification that starts now if and only if it is acceptable now: reading three times admits
   * nothing more.
   */
  lemma VerificationExactly(w0: World, run: seq<Action>, w: World, k: nat)
    requires Reached(w0, run, w)
    ensures CanPass(w, k) <==> Accepted(w, k)
  {
    if CanPass(w, k) {
      var run2, run3 :| LegalRun(w, run2) && NoRestart(run2) && LegalRun(Exec(w, run2), run3) && NoRestart(run3)
                        && Passes(w, Exec(w, run2), Exec(Exec(w, run2), run3), k);
      VerificationLinearizes(w0, run, w, run2, run3, k);
    }
    if Accepted(w, k) {
      assert Exec(w, []) == w && LegalRun(w, []) && NoRestart([]);
      assert Passes(w, Exec(w, []), Exec(Exec(w, []), []), k);
    }
  }
}
