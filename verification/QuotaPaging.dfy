/** Page-wise aggregation of the Grok2API v3 account quota. */
module QuotaPaging {
  import opened Prelude
  import opened Cooldown

  /** Billing and quota amounts are taken as already truncated to int64. */
  datatype Amounts = Amounts(remaining: int, limit: int)

  datatype Account = Account(enabled: bool, authStatus: string, windows: seq<Amounts>, quota: Option<Amounts>,
                             billing: Option<Amounts>)

  datatype Totals = Totals(remaining: int, limit: int, accounts: nat, windows: nat)

  const NONE: Totals := Totals(0, 0, 0, 0)
  const PAGE_SIZE := 100
  const MAX_PAGES := 50

  function Plus(a: Totals, b: Totals): Totals {
    Totals(a.remaining + b.remaining, a.limit + b.limit, a.accounts + b.accounts, a.windows + b.windows)
  }

  /** The amounts as the int64 accumulators hold them. */
  function Held(t: Totals): Totals {
    t.(remaining := Wrap64(t.remaining), limit := Wrap64(t.limit))
  }

  // ---------------------------------------------------------------- what one account contributes

  /** The exact sum of what every item contributes, in one pass and without overflow. */
  function Sum<T>(items: seq<T>, f: T -> Totals): Totals {
    if items == [] then NONE else Plus(Sum(items[..|items| - 1], f), f(items[|items| - 1]))
  }

  lemma SumSnoc<T>(items: seq<T>, x: T, f: T -> Totals)
    ensures Sum(items + [x], f) == Plus(Sum(items, f), f(x))
  {
    assert (items + [x])[..|items|] == items;
  }

  lemma {:induction false} SumConcat<T>(p: seq<T>, q: seq<T>, f: T -> Totals)
    ensures Sum(p + q, f) == Plus(Sum(p, f), Sum(q, f))
    decreases |q|
  {
    if q == [] {
      assert p + q == p;
    } else {
      var n := |q| - 1;
      SumConcat(p, q[..n], f);
      assert p + q == (p + q[..n]) + [q[n]];
      SumSnoc(p + q[..n], q[n], f);
    }
  }

  function WindowTotals(w: Amounts): Totals {
    Totals(w.remaining, w.limit, 0, 1)
  }

  /** Quota windows first, then a known unified quota, then the monthly credits. */
  function Contribution(a: Account): Totals {
    if !a.enabled || a.authStatus != "active" then NONE
    else if a.windows != [] then Sum(a.windows, WindowTotals).(accounts := 1)
    else if a.quota.Some? then Totals(a.quota.value.remaining, a.quota.value.limit, 1, 0)
    else if a.billing.Some? && a.billing.value.limit > 0
    then Totals(a.billing.value.remaining, a.billing.value.limit, 1, 0)
    else Totals(0, 0, 1, 0)
  }

  lemma HeldAdds(a: Totals, b: Totals)
    ensures Held(Plus(Held(a), b)) == Held(Plus(a, b)) && Held(Plus(Held(a), Held(b))) == Held(Plus(a, b))
  {
    WrapAdds(a.remaining, b.remaining);
    WrapAdds(b.remaining, Wrap64(a.remaining));
    WrapAdds(a.limit, b.limit);
    WrapAdds(b.limit, Wrap64(a.limit));
  }

  /** normalizeGrok2APIV3Accounts: the loop over accounts, adding in int64. */
  method NormalizeAccounts(items: seq<Account>) returns (t: Totals)
    ensures t == Held(Sum(items, Contribution))
  {
    t := NONE;
    for i := 0 to |items|
      invariant t == Held(Sum(items[..i], Contribution))
    {
      assert items[..i + 1] == items[..i] + [items[i]];
      SumSnoc(items[..i], items[i], Contribution);
      t := AddAccount(t, items[i], Sum(items[..i], Contribution));
    }
    assert items[..|items|] == items;
  }

  /** The body of that loop. */
  method AddAccount(start: Totals, item: Account, ghost before: Totals) returns (t: Totals)
    requires start == Held(before)
    ensures t == Held(Plus(before, Contribution(item)))
  {
    t := start;
    HeldAdds(before, Contribution(item));
    if !item.enabled || item.authStatus != "active" { return t; }
    t := t.(accounts := t.accounts + 1);
    if |item.windows| > 0 {
      t := AddWindows(t, item.windows, before);
      return t;
    }
    if item.quota.Some? {
      t := t.(remaining := Wrap64(t.remaining + item.quota.value.remaining),
              limit := Wrap64(t.limit + item.quota.value.limit));
      return t;
    }
    if item.billing.Some? && item.billing.value.limit > 0 {
      t := t.(remaining := Wrap64(t.remaining + item.billing.value.remaining),
              limit := Wrap64(t.limit + item.billing.value.limit));
    }
  }

  /** The inner loop over the windows of one account. */
  method AddWindows(start: Totals, windows: seq<Amounts>, ghost before: Totals) returns (t: Totals)
    requires start == Held(before).(accounts := before.accounts + 1)
    ensures t == Held(Plus(before, Sum(windows, WindowTotals).(accounts := 1)))
  {
    t := start;
    for i := 0 to |windows|
      invariant t == Held(Plus(before, Sum(windows[..i], WindowTotals).(accounts := 1)))
    {
      assert windows[..i + 1][..i] == windows[..i];
      ghost var sum := Plus(before, Sum(windows[..i], WindowTotals));
      WrapAdds(sum.remaining, windows[i].remaining);
      WrapAdds(sum.limit, windows[i].limit);
      t := t.(remaining := Wrap64(t.remaining + windows[i].remaining), limit := Wrap64(t.limit + windows[i].limit),
              windows := t.windows + 1);
    }
    assert windows[..|windows|] == windows;
  }

  // ---------------------------------------------------------------- paging

  /** One page request: it fails, or its body is malformed, or it brings items and the declared total. */
  datatype Page = Failed | Malformed | Page(items: seq<Account>, total: int)

  datatype Quota = Unavailable | Available(remaining: int, limit: int, used: int, accounts: nat, windows: nat)

  /** The accounts of the first k pages, in order. */
  function Accounts(pages: seq<Page>, k: nat): seq<Account>
    requires k <= |pages|
  {
    if k == 0 then [] else Accounts(pages, k - 1) + if pages[k - 1].Page? then pages[k - 1].items else []
  }

  lemma NextAccounts(pages: seq<Page>, k: nat)
    requires k < |pages| && pages[k].Page?
    ensures Accounts(pages, k + 1) == Accounts(pages, k) + pages[k].items
    ensures pages[k].items == [] ==> Accounts(pages, k + 1) == Accounts(pages, k)
  {
  }

  /** The four additions to the accumulators. */
  function Added(totals: Totals, page: Totals): Totals {
    Totals(Wrap64(totals.remaining + page.remaining), Wrap64(totals.limit + page.limit),
           totals.accounts + page.accounts, totals.windows + page.windows)
  }

  lemma PageAdds(read: seq<Account>, items: seq<Account>)
    ensures Added(Held(Sum(read, Contribution)), Held(Sum(items, Contribution)))
            == Held(Sum(read + items, Contribution))
  {
    SumConcat(read, items, Contribution);
    HeldAdds(Sum(read, Contribution), Sum(items, Contribution));
  }

  /** The totals of one page, added to those of the accounts read before. */
  method AddPage(start: Totals, items: seq<Account>, ghost read: seq<Account>) returns (t: Totals)
    requires start == Held(Sum(read, Contribution))
    ensures t == Held(Sum(read + items, Contribution))
  {
    var pageTotals := NormalizeAccounts(items);
    PageAdds(read, items);
    t := Added(start, pageTotals);
  }

  /** The quota shown for the totals; usage is the difference, and never shown as negative. */
  function QuotaFrom(t: Totals): (q: Quota)
    ensures q.Available? && q.used >= 0
  {
    var used := Wrap64(t.limit - t.remaining);
    Available(t.remaining, t.limit, if used < 0 then 0 else used, t.accounts, t.windows)
  }

  /** The loop goes on after this page. */
  predicate More(pages: seq<Page>, k: nat)
    requires k < |pages|
  {
    pages[k].Page? && pages[k].items != [] && |pages[k].items| >= PAGE_SIZE
    && !(pages[k].total > 0 && |Accounts(pages, k + 1)| >= pages[k].total)
  }

  /**
   * The paging loop of fetchGrok2APIV3Accounts, on the answers the server will give. At most fifty pages are
   * requested, each one because the one before asked for more; when a result is available its totals are those of
   * one pass over all accounts read, and the last declared total is at most their number.
   */
  method FetchAccounts(pages: seq<Page>) returns (q: Quota, requested: nat)
    requires |pages| >= MAX_PAGES
    ensures 0 < requested <= MAX_PAGES
    ensures forall k :: 0 <= k < requested - 1 ==> More(pages, k)
    ensures pages[requested - 1].Page? && requested < MAX_PAGES ==> !More(pages, requested - 1)
    ensures q.Available? <==> pages[requested - 1].Page? && pages[requested - 1].total <= |Accounts(pages, requested)|
    ensures q.Available? ==> q == QuotaFrom(Held(Sum(Accounts(pages, requested), Contribution)))
  {
    var totals, fetched, declared, page := NONE, 0, 0, 0;
    ghost var read := Accounts(pages, 0);
    while page < MAX_PAGES
      invariant 0 <= page <= MAX_PAGES && read == Accounts(pages, page)
      invariant forall k :: 0 <= k < page ==> More(pages, k)
      invariant totals == Held(Sum(read, Contribution)) && fetched == |read|
      invariant page > 0 ==> pages[page - 1].Page? && declared == pages[page - 1].total
    {
      var answer := pages[page];
      if !answer.Page? { return Unavailable, page + 1; }
      NextAccounts(pages, page);
      page := page + 1;
      declared := answer.total;
      if |answer.items| == 0 { break; }
      totals := AddPage(totals, answer.items, read);
      fetched := fetched + |answer.items|;
      read := Accounts(pages, page);
      if declared > 0 && fetched >= declared { break; }
      if |answer.items| < PAGE_SIZE { break; }
    }
    if declared > fetched { return Unavailable, page; }
    q := QuotaFrom(totals);
    return q, page;
  }
}
