/** Bounded pagination, and the one ruleset that must protect the default branch. */
module Pages {
  import opened Schema

  const PAGE_SIZE := 100
  const PAGE_LIMIT := 100

  /** The items of the first n pages, in order. */
  function FirstPages<T>(page: nat -> seq<T>, n: nat): seq<T> {
    if n == 0 then [] else FirstPages(page, n - 1) + page(n)
  }

  /** Page n is the first that is not full. */
  predicate EndsAt<T>(page: nat -> seq<T>, n: nat) {
    1 <= n && |page(n)| < PAGE_SIZE && forall k: nat :: 1 <= k < n ==> |page(k)| >= PAGE_SIZE
  }

  /** Read page after page until one is not full; give up after the last allowed page. */
  method FetchAll<T>(page: nat -> seq<T>) returns (items: Option<seq<T>>)
    ensures items.Some? <==> exists n: nat :: n <= PAGE_LIMIT && EndsAt(page, n)
    ensures items.Some? ==> forall n: nat :: EndsAt(page, n) ==> items.value == FirstPages(page, n)
  {
    var result: seq<T> := [];
    var n := 1;
    while true
      invariant 1 <= n <= PAGE_LIMIT
      invariant result == FirstPages(page, n - 1)
      invariant forall k: nat :: 1 <= k < n ==> |page(k)| >= PAGE_SIZE
      decreases PAGE_LIMIT - n
    {
      result := result + page(n);
      if |page(n)| < PAGE_SIZE {
        assert EndsAt(page, n);
        forall m: nat | EndsAt(page, m)
          ensures m == n
        {
          assert !(m < n) && !(n < m);
        }
        return Some(result);
      }
      n := n + 1;
      if n > PAGE_LIMIT {
        return None;
      }
    }
  }

  /** How a server pages a listing that does not change while it is read. */
  function PageOf<T>(listing: seq<T>, n: nat): seq<T> {
    if n == 0 || (n - 1) * PAGE_SIZE >= |listing| then []
    else if n * PAGE_SIZE >= |listing| then listing[(n - 1) * PAGE_SIZE..]
    else listing[(n - 1) * PAGE_SIZE..n * PAGE_SIZE]
  }

  lemma {:induction false} PagesAreSlices<T>(listing: seq<T>, page: nat -> seq<T>, n: nat)
    requires forall k: nat :: page(k) == PageOf(listing, k)
    requires n * PAGE_SIZE <= |listing|
    ensures FirstPages(page, n) == listing[..n * PAGE_SIZE]
  {
    if n > 0 {
      PagesAreSlices(listing, page, n - 1);
      assert page(n) == listing[(n - 1) * PAGE_SIZE..n * PAGE_SIZE];
    }
  }

  lemma FullPage<T>(listing: seq<T>, n: nat)
    requires 1 <= n && n * PAGE_SIZE <= |listing|
    ensures |PageOf(listing, n)| == PAGE_SIZE
  {
  }

  lemma LastPage<T>(listing: seq<T>, full: nat)
    requires full * PAGE_SIZE <= |listing| < (full + 1) * PAGE_SIZE
    ensures PageOf(listing, full + 1) == listing[full * PAGE_SIZE..]
  {
  }

  /** A stable listing ends on the page after its last full one, and the pages up to there are the whole of it. */
  lemma StableListing<T>(listing: seq<T>, page: nat -> seq<T>, full: nat)
    requires forall k: nat :: page(k) == PageOf(listing, k)
    requires full * PAGE_SIZE <= |listing| < (full + 1) * PAGE_SIZE
    ensures EndsAt(page, full + 1)
    ensures FirstPages(page, full + 1) == listing
  {
    PagesAreSlices(listing, page, full);
    LastPage(listing, full);
    forall k: nat | 1 <= k < full + 1
      ensures |page(k)| >= PAGE_SIZE
    {
      FullPage(listing, k);
    }
    assert page(full + 1) == listing[full * PAGE_SIZE..];
    assert listing[..full * PAGE_SIZE] + listing[full * PAGE_SIZE..] == listing;
  }

  lemma EndsOnce<T>(page: nat -> seq<T>, m: nat, n: nat)
    requires EndsAt(page, m) && EndsAt(page, n)
    ensures m == n
  {
  }

  /** A stable listing served 100 a page is returned whole exactly when it has fewer than 10,000 items. */
  method FetchStable<T>(listing: seq<T>) returns (items: Option<seq<T>>)
    ensures items == if |listing| < 10000 then Some(listing) else None
  {
    var page := (n: nat) => PageOf(listing, n);
    ghost var full := |listing| / PAGE_SIZE;
    StableListing(listing, page, full);
    items := FetchAll(page);
    if items.Some? {
      ghost var n: nat :| n <= PAGE_LIMIT && EndsAt(page, n);
      EndsOnce(page, n, full + 1);
    }
  }

  /* ---------- The default-branch ruleset ---------- */

  datatype Ruleset = Ruleset(
    id: nat, branchTarget: bool, active: bool, covers: Option<seq<string>>, excepts: Option<seq<string>>,
    bypass: Option<seq<nat>>, rules: seq<string>)

  predicate Applies(r: Ruleset, defaultBranch: string) {
    && r.branchTarget && r.active && r.covers.Some? && r.excepts == Some([])
    && ("~DEFAULT_BRANCH" in r.covers.value || "refs/heads/" + defaultBranch in r.covers.value)
  }

  function Applicable(rulesets: seq<Ruleset>, defaultBranch: string): seq<Ruleset> {
    if rulesets == [] then []
    else if Applies(Last(rulesets), defaultBranch) then Applicable(Init(rulesets), defaultBranch) + [Last(rulesets)]
    else Applicable(Init(rulesets), defaultBranch)
  }

  function CountRule(rules: seq<string>, kind: string): nat {
    if rules == [] then 0 else CountRule(Init(rules), kind) + (if Last(rules) == kind then 1 else 0)
  }

  /** It is well identified, nobody may bypass it, and it requires pull requests once. */
  predicate Protects(r: Ruleset) {
    r.id >= 1 && r.bypass == Some([]) && CountRule(r.rules, "pull_request") == 1
  }

  lemma {:induction false} ApplicableMeans(rulesets: seq<Ruleset>, defaultBranch: string)
    ensures |Applicable(rulesets, defaultBranch)| == 1 <==>
      exists i :: 0 <= i < |rulesets| && SoleAt(rulesets, defaultBranch, i)
    ensures |Applicable(rulesets, defaultBranch)| == 0 <==>
      forall i :: 0 <= i < |rulesets| ==> !Applies(rulesets[i], defaultBranch)
    ensures forall i :: 0 <= i < |rulesets| && SoleAt(rulesets, defaultBranch, i) ==>
      Applicable(rulesets, defaultBranch) == [rulesets[i]]
  {
    if rulesets != [] {
      var init := Init(rulesets);
      ApplicableMeans(init, defaultBranch);
      assert forall i :: 0 <= i < |init| ==> init[i] == rulesets[i];
      if Applies(Last(rulesets), defaultBranch) {
        if |Applicable(init, defaultBranch)| == 0 {
          assert SoleAt(rulesets, defaultBranch, |rulesets| - 1);
        }
      } else if |Applicable(init, defaultBranch)| == 1 {
        var i :| 0 <= i < |init| && SoleAt(init, defaultBranch, i);
        assert SoleAt(rulesets, defaultBranch, i);
      }
      forall i | 0 <= i < |init| && SoleAt(rulesets, defaultBranch, i)
        ensures SoleAt(init, defaultBranch, i)
      {
      }
    }
  }

  /** This ruleset applies, and none of the others does. */
  predicate SoleAt(rulesets: seq<Ruleset>, defaultBranch: string, i: nat)
    requires i < |rulesets|
  {
    Applies(rulesets[i], defaultBranch) && forall j :: 0 <= j < |rulesets| && j != i ==>
      !Applies(rulesets[j], defaultBranch)
  }

  /** Every summary in the listing names a ruleset, and its detail can be fetched. */
  predicate Fetchable(ids: seq<nat>, details: map<nat, Ruleset>) {
    forall i :: 0 <= i < |ids| ==> ids[i] >= 1 && ids[i] in details
  }

  /** The details behind the summaries, in the order of the listing. */
  function Detailed(ids: seq<nat>, details: map<nat, Ruleset>): (all: seq<Ruleset>)
    requires Fetchable(ids, details)
    ensures |all| == |ids|
  {
    seq(|ids|, i requires 0 <= i < |ids| => details[ids[i]])
  }

  /** Every summary is expanded before any ruleset is judged. */
  method FetchRulesetDetails(ids: seq<nat>, details: map<nat, Ruleset>) returns (all: Option<seq<Ruleset>>)
    ensures all.Some? <==> Fetchable(ids, details)
    ensures all.Some? ==> all.value == Detailed(ids, details)
  {
    var fetched: seq<Ruleset> := [];
    for i := 0 to |ids|
      invariant |fetched| == i
      invariant forall j :: 0 <= j < i ==> ids[j] >= 1 && ids[j] in details && fetched[j] == details[ids[j]]
    {
      if ids[i] < 1 || ids[i] !in details {
        return None;
      }
      fetched := fetched + [details[ids[i]]];
    }
    all := Some(fetched);
  }

  /** Over the whole repository listing: a ruleset is selected exactly when it alone applies and it protects. */
  method RequireDefaultBranchRuleset(listing: seq<nat>, details: map<nat, Ruleset>, defaultBranch: string)
    returns (selected: Option<Ruleset>)
    ensures selected.Some? <==>
      && |listing| < 10000 && Fetchable(listing, details)
      && exists i :: 0 <= i < |listing| && SoleAt(Detailed(listing, details), defaultBranch, i)
                     && Protects(Detailed(listing, details)[i])
    ensures selected.Some? ==>
      exists i :: 0 <= i < |listing| && SoleAt(Detailed(listing, details), defaultBranch, i)
                  && selected.value == details[listing[i]]
  {
    var fetched := FetchStable(listing);
    if fetched.None? {
      return None;
    }
    var all := FetchRulesetDetails(fetched.value, details);
    if all.None? {
      return None;
    }
    var applicable := Applicable(all.value, defaultBranch);
    ApplicableMeans(all.value, defaultBranch);
    if |applicable| != 1 || !Protects(applicable[0]) {
      return None;
    }
    selected := Some(applicable[0]);
  }
}
