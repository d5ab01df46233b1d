/**
 * The group base of an outbound proxy group: a version-gated cache of each
 * provider's name-filtered proxies, the assembled and weight-filtered proxy
 * list, and the failure counter that escalates to a health-check sweep of
 * every provider.
 */
module GroupBase {
  import opened Types
  import opened Sequences
  import opened WeightFilter
  import opened FailureCounter

  /** One cache slot: the version it was computed for and its proxies. */
  datatype Slot = Slot(version: uint32, proxies: seq<Proxy>)

  /** A provider's proxies whose names the name pattern matches, in order. */
  function NameFiltered(ps: seq<Proxy>, matches: string -> bool): (r: seq<Proxy>)
  {
    Filter(ps, (p: Proxy) => matches(p.name))
  }

  /** The view a slot should hold of a provider: Compatible providers are taken unfiltered. */
  function View(pd: ProviderView, matches: string -> bool): (r: seq<Proxy>)
  {
    if pd.compatible then pd.proxies else NameFiltered(pd.proxies, matches)
  }

  /** A slot is coherent with a provider when, if it claims the provider's version, it holds that version's view. */
  ghost predicate Coherent(s: Slot, pd: ProviderView, matches: string -> bool)
  {
    s.version == pd.version ==> s.proxies == View(pd, matches)
  }

  /**
   * The slot after one lookup of its provider: a Compatible provider is
   * always re-read, any other is recomputed only when its version differs
   * from the cached one.
   */
  function Refreshed(s: Slot, pd: ProviderView, matches: string -> bool): (r: Slot)
  {
    if pd.compatible then Slot(pd.version, pd.proxies)
    else if s.version != pd.version then Slot(pd.version, NameFiltered(pd.proxies, matches))
    else s
  }

  /** Each provider's current proxy list, in provider order. */
  function ListsOf(pds: seq<ProviderView>): (r: seq<seq<Proxy>>)
    ensures |r| == |pds| && forall i :: 0 <= i < |pds| ==> r[i] == pds[i].proxies
  {
    seq(|pds|, i requires 0 <= i < |pds| => pds[i].proxies)
  }

  /** The result of a lookup from the concatenated lists: the fallback when there is nothing, else the weight filter's result. */
  function Assembled(all: seq<Proxy>, weightFilter: string, fallback: Proxy): (r: Outcome<seq<Proxy>>)
  {
    if all == [] then Ok([fallback]) else WeightFiltered(all, weightFilter)
  }

  /** The name-pattern loop over one provider's proxies. */
  method MatchingProxies(ps: seq<Proxy>, matches: string -> bool) returns (r: seq<Proxy>)
    ensures r == NameFiltered(ps, matches)
  {
    r := [];
    for i := 0 to |ps|
      invariant r == NameFiltered(ps[..i], matches)
    {
      if matches(ps[i].name) {
        r := r + [ps[i]];
      }
      assert ps[..i + 1][..i] == ps[..i];
    }
    assert ps[..|ps|] == ps;
  }

  /** After a lookup a slot always claims the provider's current version, and holds its view when it was coherent before. */
  lemma RefreshedIsCurrent(s: Slot, pd: ProviderView, matches: string -> bool)
    ensures Refreshed(s, pd, matches).version == pd.version
    ensures Coherent(s, pd, matches) ==> Refreshed(s, pd, matches).proxies == View(pd, matches)
  {
  }

  /** A non-Compatible provider whose version is unchanged is not recomputed: its slot is left as it is. */
  lemma UnchangedVersionKeepsSlot(s: Slot, pd: ProviderView, matches: string -> bool)
    requires !pd.compatible && s.version == pd.version
    ensures Refreshed(s, pd, matches) == s
  {
  }

  /** A second lookup of an unchanged provider changes nothing. */
  lemma RefreshedIdempotent(s: Slot, pd: ProviderView, matches: string -> bool)
    ensures Refreshed(Refreshed(s, pd, matches), pd, matches) == Refreshed(s, pd, matches)
  {
  }

  /**
   * If a provider's list is determined by its version, a coherent slot stays
   * coherent across lookups: the cache never serves a stale list for a
   * version it claims.
   */
  lemma CoherenceCarriesOver(s: Slot, pd: ProviderView, later: ProviderView, matches: string -> bool)
    requires Coherent(s, pd, matches)
    requires later.version == pd.version ==> later.proxies == pd.proxies && later.compatible == pd.compatible
    ensures Coherent(Refreshed(s, pd, matches), later, matches)
  {
  }

  /**
   * A fresh slot (version 0, no proxies) is coherent unless the provider
   * reports version 0 with a non-empty view: such a non-Compatible provider
   * is never read into its slot until its version changes.
   */
  lemma FreshSlotCoherent(pd: ProviderView, matches: string -> bool)
    ensures Coherent(Slot(0, []), pd, matches) <==> pd.version != 0 || View(pd, matches) == []
    ensures !pd.compatible && pd.version == 0 ==> Refreshed(Slot(0, []), pd, matches) == Slot(0, [])
  {
  }

  /**
   * With a pattern that matches every name, a cache whose slots are all
   * coherent yields, after one lookup, the same concatenation as reading
   * every provider afresh.
   */
  lemma CachedAgreesWithUncached(slots: seq<Slot>, pds: seq<ProviderView>, matches: string -> bool)
    requires |slots| == |pds|
    requires forall i :: 0 <= i < |pds| ==> Coherent(slots[i], pds[i], matches)
    requires forall name :: matches(name)
    ensures Flatten(seq(|pds|, i requires 0 <= i < |pds| => Refreshed(slots[i], pds[i], matches).proxies))
      == Flatten(ListsOf(pds))
  {
    var cached := seq(|pds|, i requires 0 <= i < |pds| => Refreshed(slots[i], pds[i], matches).proxies);
    forall i | 0 <= i < |pds| ensures cached[i] == pds[i].proxies {
      RefreshedIsCurrent(slots[i], pds[i], matches);
      var ps := pds[i].proxies;
      assert forall k :: 0 <= k < |ps| ==> matches(ps[k].name);
      FilterAllKept(ps, (p: Proxy) => matches(p.name));
    }
    assert cached == ListsOf(pds);
  }

  /**
   * The fallback is returned exactly when every provider's list is empty;
   * otherwise the lookup's result is the weight filter applied to the
   * concatenation.
   */
  lemma FallbackOnlyWhenAllEmpty(lists: seq<seq<Proxy>>, weightFilter: string, fallback: Proxy)
    ensures (forall i :: 0 <= i < |lists| ==> lists[i] == [])
      ==> Assembled(Flatten(lists), weightFilter, fallback) == Ok([fallback])
    ensures (exists i :: 0 <= i < |lists| && lists[i] != [])
      ==> Assembled(Flatten(lists), weightFilter, fallback) == WeightFiltered(Flatten(lists), weightFilter)
  {
    FlattenEmpty(lists);
  }

  /** A weight filter can leave nothing: the fallback is not substituted after weight filtering. */
  lemma WeightFilterCanEmptyResult(fallback: Proxy)
    ensures Assembled([Proxy("a", 1)], "==2", fallback) == Ok([])
  {
    var s := "==2";
    assert MatchAt(s, 0);
    assert DigitRunEnd(s, 3) == 3;
    assert DigitRunEnd(s, 2) == 3;
    assert s[2..3] == "2";
    assert DecimalValue("2") == 2 by {
      assert "2"[..0] == [];
    }
    assert [Proxy("a", 1)][..0] == [];
  }

  /** Every proxy in a successful lookup comes from one of the lists. */
  lemma ResultFromProviders(lists: seq<seq<Proxy>>, weightFilter: string, fallback: Proxy, p: Proxy)
    requires Flatten(lists) != []
    requires Assembled(Flatten(lists), weightFilter, fallback).Ok?
    requires p in Assembled(Flatten(lists), weightFilter, fallback).value
    ensures exists i :: 0 <= i < |lists| && p in lists[i]
  {
    ResultDrawnFromInput(Flatten(lists), weightFilter, p);
    FlattenMembership(lists, p);
  }

  class GroupBase {
    /** The compiled name pattern, absent when the pattern text was empty. */
    const filter: Option<string -> bool>
    const weightFilter: string
    /** The reserved COMPATIBLE proxy substituted for an empty list. */
    const fallback: Proxy
    const providerCount: nat

    /** Per provider: the version its cached slot was computed for. */
    const versions: array<uint32>
    /** Per provider: the cached, name-filtered proxies. */
    const proxies: array<seq<Proxy>>

    var failedTimes: int
    var failedTime: int
    var failedTesting: bool

    /** Per provider: how many times this group invoked its Touch. */
    ghost var touches: seq<nat>
    /** Per provider: how many times this group invoked its HealthCheck. */
    ghost var healthChecks: seq<nat>

    ghost predicate Valid()
      reads this
    {
      && versions.Length == providerCount
      && proxies.Length == providerCount
      && |touches| == providerCount
      && |healthChecks| == providerCount
      && 0 <= failedTimes < MaxFailedTimes
    }

    ghost function Failure(): (r: FailureState)
      reads this
    {
      FailureState(failedTimes, failedTime, failedTesting)
    }

    /** A group over `providerCount` providers; every slot starts at version 0 with no proxies. */
    constructor (filterPattern: string, matches: string -> bool, weightFilter: string,
                 fallback: Proxy, providerCount: nat)
      ensures Valid() && fresh(versions) && fresh(proxies)
      ensures filter == if filterPattern == "" then None else Some(matches)
      ensures this.weightFilter == weightFilter && this.fallback == fallback
      ensures this.providerCount == providerCount
      ensures forall i :: 0 <= i < providerCount ==> versions[i] == 0 && proxies[i] == []
      ensures Failure() == Idle
      ensures forall i :: 0 <= i < providerCount ==> touches[i] == 0 && healthChecks[i] == 0
    {
      filter := if filterPattern == "" then None else Some(matches);
      this.weightFilter := weightFilter;
      this.fallback := fallback;
      this.providerCount := providerCount;
      versions := new uint32[providerCount](_ => 0);
      proxies := new seq<Proxy>[providerCount](_ => []);
      failedTimes, failedTime, failedTesting := 0, 0, false;
      touches := seq(providerCount, _ => 0);
      healthChecks := seq(providerCount, _ => 0);
    }

    /**
     * The group's proxies, given what each provider reports during this call
     * (after its Touch when `touch` is set).
     */
    method GetProxies(touch: bool, pds: seq<ProviderView>) returns (r: Outcome<seq<Proxy>>)
      requires Valid() && |pds| == providerCount
      modifies this, versions, proxies
      ensures Valid()
      ensures Failure() == old(Failure()) && healthChecks == old(healthChecks)
      ensures forall i :: 0 <= i < providerCount ==>
        touches[i] == old(touches[i]) + if touch then 1 else 0
      ensures filter.None? ==> unchanged(versions, proxies)
      ensures filter.None? ==> r == Assembled(Flatten(ListsOf(pds)), weightFilter, fallback)
      ensures filter.Some? ==> forall i :: 0 <= i < providerCount ==>
        Slot(versions[i], proxies[i]) == Refreshed(old(Slot(versions[i], proxies[i])), pds[i], filter.value)
      ensures filter.Some? ==> r == Assembled(Flatten(proxies[..]), weightFilter, fallback)
    {
      if filter.None? {
        var all: seq<Proxy> := [];
        for i := 0 to providerCount
          invariant |touches| == providerCount
          invariant forall j :: 0 <= j < providerCount ==>
            touches[j] == old(touches[j]) + if touch && j < i then 1 else 0
          invariant all == Flatten(ListsOf(pds)[..i])
          invariant unchanged(versions, proxies)
          invariant Failure() == old(Failure()) && healthChecks == old(healthChecks)
        {
          if touch {
            touches := touches[i := touches[i] + 1];
          }
          all := all + pds[i].proxies;
          assert ListsOf(pds)[..i + 1][..i] == ListsOf(pds)[..i];
        }
        assert ListsOf(pds)[..providerCount] == ListsOf(pds);
        if |all| == 0 {
          return Ok([fallback]);
        }
        r := FilterProxyByWeight(all, weightFilter);
        return;
      }
      var matches := filter.value;
      for i := 0 to providerCount
        invariant |touches| == providerCount
        invariant forall j :: 0 <= j < providerCount ==>
          touches[j] == old(touches[j]) + if touch && j < i then 1 else 0
        invariant forall j :: 0 <= j < i ==>
          Slot(versions[j], proxies[j]) == Refreshed(old(Slot(versions[j], proxies[j])), pds[j], matches)
        invariant forall j :: i <= j < providerCount ==>
          versions[j] == old(versions[j]) && proxies[j] == old(proxies[j])
        invariant Failure() == old(Failure()) && healthChecks == old(healthChecks)
      {
        if touch {
          touches := touches[i := touches[i] + 1];
        }
        var pd := pds[i];
        if pd.compatible {
          versions[i] := pd.version;
          proxies[i] := pd.proxies;
          continue;
        }
        var version := versions[i];
        if version != pd.version {
          // Run alone, the compare-and-swap always succeeds here.
          versions[i] := pd.version;
          var kept := MatchingProxies(pd.proxies, matches);
          proxies[i] := kept;
        }
      }
      var all: seq<Proxy> := [];
      for i := 0 to providerCount
        invariant all == Flatten(proxies[..i])
      {
        all := all + proxies[i];
        assert proxies[..i + 1][..i] == proxies[..i];
      }
      assert proxies[..providerCount] == proxies[..];
      if |all| == 0 {
        return Ok([fallback]);
      }
      r := FilterProxyByWeight(all, weightFilter);
    }

    /** A dial through the group failed at time `now`. */
    method OnDialFailed(now: int)
      requires Valid()
      modifies this
      ensures Valid()
      ensures Failure() == DialFailed(old(Failure()), now).state
      ensures forall i :: 0 <= i < providerCount ==>
        healthChecks[i] == old(healthChecks[i]) + if DialFailed(old(Failure()), now).sweep then 1 else 0
      ensures touches == old(touches)
    {
      if failedTesting {
        return;
      }
      failedTimes := failedTimes + 1;
      if failedTimes == 1 {
        failedTime := now;
      } else {
        if now - failedTime > FailedTimeoutIntervalMs {
          failedTimes := 0;
          return;
        }
        if failedTimes >= MaxFailedTimes {
          failedTesting := true;
          for i := 0 to providerCount
            invariant |healthChecks| == providerCount
            invariant forall j :: 0 <= j < providerCount ==>
              healthChecks[j] == old(healthChecks[j]) + if j < i then 1 else 0
            invariant touches == old(touches)
            invariant failedTimes == old(failedTimes) + 1 && failedTime == old(failedTime)
          {
            healthChecks := healthChecks[i := healthChecks[i] + 1];
          }
          failedTesting := false;
          failedTimes := 0;
        }
      }
    }

    /** A dial through the group succeeded. */
    method OnDialSuccess()
      requires Valid()
      modifies this
      ensures Valid()
      ensures Failure() == DialSucceeded(old(Failure()))
      ensures touches == old(touches) && healthChecks == old(healthChecks)
    {
      if !failedTesting {
        failedTimes := 0;
      }
    }
  }

  /**
   * A stand-in for the pattern `^A|B$` on names without a line break:
   * names that start with A or end with B. (The pattern's `$` also matches
   * before a final newline, which this predicate does not.)
   */
  function StartsWithAOrEndsWithB(name: string): (r: bool)
  {
    |name| > 0 && (name[0] == 'A' || name[|name| - 1] == 'B')
  }

  /** The weight filter `>=15` keeps B (20) and drops A (10). */
  lemma AtLeastFifteen(a: Proxy, b: Proxy)
    requires a == Proxy("A", 10) && b == Proxy("B", 20)
    ensures WeightFiltered([a, b], ">=15") == Ok([b])
  {
    FindMatchComplete(">=15", Match(0, Ge, "15"));
    assert DecimalValue("15") == 15 by {
      assert "15"[..1] == "1";
      assert "1"[..0] == [];
    }
    var keep := (p: Proxy) => Satisfies(Ge, p.weight, 15);
    assert [a, b][..1] == [a];
    assert [a][..0] == [];
    assert Filter([a], keep) == [];
    assert Filter([a, b], keep) == [b];
  }

  /** What the group yields when its only slot holds A (10) and B (20) under `>=15`. */
  lemma AssembledScenario(a: Proxy, b: Proxy, fallback: Proxy)
    requires a == Proxy("A", 10) && b == Proxy("B", 20)
    ensures Assembled(Flatten([[a, b]]), ">=15", fallback) == Ok([b])
  {
    assert [[a, b]][..0] == [];
    assert Flatten([[a, b]]) == [a, b];
    AtLeastFifteen(a, b);
  }

  /** The pattern `^A|B$` keeps A and B and drops C. */
  lemma PatternKeepsAB(a: Proxy, b: Proxy, c: Proxy)
    requires a == Proxy("A", 10) && b == Proxy("B", 20) && c == Proxy("C", 30)
    ensures NameFiltered([a, b], StartsWithAOrEndsWithB) == [a, b]
    ensures NameFiltered([a, b, c], StartsWithAOrEndsWithB) == [a, b]
  {
    var matches := StartsWithAOrEndsWithB;
    var keep := (p: Proxy) => matches(p.name);
    assert StartsWithAOrEndsWithB("A") && StartsWithAOrEndsWithB("B") && !StartsWithAOrEndsWithB("C");
    assert keep(a) && keep(b) && !keep(c);
    assert [a, b, c][..2] == [a, b];
    assert [a, b][..1] == [a];
    assert [a][..0] == [];
    assert Filter([a], keep) == [a];
    assert Filter([a, b], keep) == [a, b];
    assert Filter([a, b, c], keep) == [a, b];
    assert NameFiltered([a, b], StartsWithAOrEndsWithB) == Filter([a, b], keep);
    assert NameFiltered([a, b, c], StartsWithAOrEndsWithB) == Filter([a, b, c], keep);
  }

  /**
   * One provider, name pattern `^A|B$`, weight filter `>=15`: version 1
   * lists A (10) and B (20) and the group yields B; after a bump to version
   * 2 that adds C (30) the slot is recomputed, and C, which the pattern does
   * not match, stays out; a lookup at the same version leaves the cache as it
   * is.
   */
  method CacheScenario()
  {
    var a, b, c := Proxy("A", 10), Proxy("B", 20), Proxy("C", 30);
    var fallback := Proxy("COMPATIBLE", 0);
    var g := new GroupBase("^A|B$", StartsWithAOrEndsWithB, ">=15", fallback, 1);
    PatternKeepsAB(a, b, c);
    AssembledScenario(a, b, fallback);

    var r := g.GetProxies(false, [ProviderView(1, false, [a, b])]);
    assert g.versions[0] == 1 && g.proxies[0] == [a, b];
    assert g.proxies[..] == [[a, b]];
    assert r == Ok([b]);

    r := g.GetProxies(false, [ProviderView(2, false, [a, b, c])]);
    assert g.versions[0] == 2 && g.proxies[0] == [a, b];
    assert g.proxies[..] == [[a, b]];
    assert r == Ok([b]);

    r := g.GetProxies(true, [ProviderView(2, false, [a, b, c])]);
    assert g.versions[0] == 2 && g.proxies[0] == [a, b];
    assert g.touches[0] == 1;
  }
}
