/** RedeemTx tests the expiry of an invite twice: on the parsed instant in Go, and on its text in SQL. */
module InviteExpiry {
  import opened Prelude
  import opened TokenTables
  import T = Timestamps
  import Text

  ghost predicate Redeems(invites: map<string, Invite>, code: string, agent: string, now: Instant, textLater: bool) {
    CheckInvite(invites, code, agent, now).Ok? && Claimable(invites, Text.TrimSpace(code), textLater)
  }

  /**
   * The guarded UPDATE asks SQLite whether expires_at > now. An invite that passed every check of the SELECT is
   * refused after all (as exhausted) exactly when it expires within the same second and the fraction of the clock
   * reading is the beginning of the fraction of the expiry, so never when a second or more is left. And the text never
   * lets an expired invite through, whatever it answers: the SELECT has refused it before.
   */
  lemma TextTestMayRefuse(invites: map<string, Invite>, code: string, agent: string, now: Instant)
    requires Text.TrimSpace(code) in invites && T.Dated(now) && T.Dated(invites[Text.TrimSpace(code)].expires)
    ensures var expires := invites[Text.TrimSpace(code)].expires;
      Redeems(invites, code, agent, now, T.TextLess(now, expires))
      <==> CheckInvite(invites, code, agent, now).Ok?
           && !(now / T.SECOND == expires / T.SECOND && T.Truncates(9, now % T.SECOND, expires % T.SECOND))
    ensures CheckInvite(invites, code, agent, now).Ok? && now + T.SECOND <= invites[Text.TrimSpace(code)].expires ==>
              Redeems(invites, code, agent, now, T.TextLess(now, invites[Text.TrimSpace(code)].expires))
    ensures invites[Text.TrimSpace(code)].expires <= now ==>
              forall textLater :: !Redeems(invites, code, agent, now, textLater)
  {
    if CheckInvite(invites, code, agent, now).Ok? {
      var expires := invites[Text.TrimSpace(code)].expires;
      OnlyText(invites, code, agent, now, T.TextLess(now, expires));
      T.LaterText(now, expires);
      T.TextWithinOneSecond(now, expires);
    }
  }

  lemma OnlyText(invites: map<string, Invite>, code: string, agent: string, now: Instant, textLater: bool)
    requires CheckInvite(invites, code, agent, now).Ok?
    ensures Redeems(invites, code, agent, now, textLater) <==> textLater
    ensures now < invites[Text.TrimSpace(code)].expires
  {
  }

  /** Half a second into the year 2026. */
  const NEW_YEAR_2026: Instant := 63_934_444_800_500_000_000

  lemma NewYear()
    ensures T.CivilAt(NEW_YEAR_2026 / T.SECOND) == T.Civil(2026, 1, 1, 0, 0, 0)
            && NEW_YEAR_2026 % T.SECOND == 500_000_000
  {
    var s := 63_934_444_800;
    assert NEW_YEAR_2026 / T.SECOND == s && NEW_YEAR_2026 % T.SECOND == 500_000_000;
    YearStarts(2026, s);
  }

  lemma YearStarts(y: nat, s: nat)
    requires 86_400 * T.DaysBefore(y) == s
    ensures T.CivilAt(s) == T.Civil(y, 1, 1, 0, 0, 0)
  {
    T.DaysAddUp(y);
    T.SameSecond(s, T.Civil(y, 1, 1, 0, 0, 0));
  }

  /**
   * A concrete refusal: half a second into 2026, an unused invite that expires a hundredth of a second later passes
   * every check of the SELECT and is then refused by the UPDATE, whose text comparison takes it for expired.
   */
  lemma LastInstant(now: Instant, invites: map<string, Invite>)
    requires now == NEW_YEAR_2026 && invites == map["inv_a" := Invite(1, "", 1, 0, now + 10_000_000, false)]
    ensures T.CivilAt(now / T.SECOND) == T.Civil(2026, 1, 1, 0, 0, 0) && now < invites["inv_a"].expires
    ensures CheckInvite(invites, "inv_a", "", now) == Ok(1)
    ensures !Redeems(invites, "inv_a", "", now, T.TextLess(now, invites["inv_a"].expires))
  {
    var expires := now + 10_000_000;
    NewYear();
    Tokens();
    assert now / T.SECOND == expires / T.SECOND && now % T.SECOND == 500_000_000 && expires % T.SECOND == 510_000_000;
    Continues();
    TextTestMayRefuse(invites, "inv_a", "", now);
  }

  lemma Tokens()
    ensures Text.TrimSpace("inv_a") == "inv_a" && Text.TrimSpace("") == ""
  {
  }

  lemma Continues()
    ensures T.Truncates(9, 500_000_000, 510_000_000)
  {
    PowerOfEight();
    assert T.Dropped(510_000_000, T.Pow10(8)) == 500_000_000;
  }

  lemma PowerOfEight()
    ensures T.Pow10(8) == 100_000_000
  {
    assert T.Pow10(2) == 100;
    assert T.Pow10(4) == 10_000;
    assert T.Pow10(6) == 1_000_000;
  }
}
