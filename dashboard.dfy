/**
 * The dashboard page (dashboard.js): the compliance rate and the top-tools ranking of the
 * overview, the type filter of the logs table, the manager's list of custom domains, and
 * the levels and choices the monitoring tab shows. Rendering to HTML is not modelled; the
 * values rendered are.
 */
module Dashboard {
  import opened Wrappers
  import opened Text
  import opened Js
  import opened Config
  import opened Seqs
  import Policy

  // ---- log selection ----

  /** `logs.filter((l) => l.type === t)`. */
  function OfType(logs: seq<Object>, t: string): (r: seq<Object>)
    ensures |r| <= |logs|
    decreases |logs|
  {
    if logs == [] then []
    else (if Get(logs[0], "type") == Str(t) then [logs[0]] else []) + OfType(logs[1..], t)
  }

  lemma {:induction false} OfTypeMembers(logs: seq<Object>, t: string)
    ensures forall l :: l in OfType(logs, t) <==> l in logs && Get(l, "type") == Str(t)
    decreases |logs|
  {
    if logs != [] {
      OfTypeMembers(logs[1..], t);
      assert logs == [logs[0]] + logs[1..];
    }
  }

  // ---- compliance rate ----

  /** `totalDecisions > 0 ? Math.round((redirects / totalDecisions) * 100) : 100`, in exact arithmetic. */
  function ComplianceRate(redirects: nat, continued: nat): nat {
    var total := redirects + continued;
    if total == 0 then 100 else (200 * redirects + total) / (2 * total)
  }

  /** The rate the overview shows for a list of (already time-filtered) logs. */
  function ComplianceRateOf(logs: seq<Object>): nat {
    ComplianceRate(|OfType(logs, "user_redirected")|, |OfType(logs, "user_continued_unapproved")|)
  }

  /**
   * The rate is the percentage of decisions that were redirects, rounded to the nearest
   * integer with halves rounded up; it is 100 when there are no decisions, 100 when every
   * decision was a redirect, and 0 when none was.
   */
  lemma ComplianceRateIsRoundedPercentage(redirects: nat, continued: nat)
    ensures var rate := ComplianceRate(redirects, continued);
            var total := redirects + continued;
            && rate <= 100
            && (total == 0 ==> rate == 100)
            && (total > 0 ==> rate * (2 * total) <= 200 * redirects + total < (rate + 1) * (2 * total))
            && (total > 0 && continued == 0 ==> rate == 100)
            && (total > 0 && redirects == 0 ==> rate == 0)
  {
    var total := redirects + continued;
    if total > 0 {
      var n := 200 * redirects + total;
      var d := 2 * total;
      var rate := n / d;
      DivBounds(n, d);
      MulMono(101, rate, d);
      if continued == 0 {
        DivBetween(n, d, 100);
      }
      if redirects == 0 {
        DivBetween(n, d, 0);
      }
    }
  }

  lemma DivBounds(n: nat, d: nat)
    requires d > 0
    ensures (n / d) * d <= n < (n / d + 1) * d
  {
    assert n == d * (n / d) + n % d;
  }

  lemma MulMono(a: int, b: int, d: nat)
    ensures a <= b ==> a * d <= b * d
  {
    if a <= b {
      assert b * d - a * d == (b - a) * d;
    }
  }

  lemma DivBetween(n: nat, d: nat, q: nat)
    requires d > 0 && q * d <= n < (q + 1) * d
    ensures n / d == q
  {
    var r := n / d;
    DivBounds(n, d);
    MulMono(r + 1, q, d);
    MulMono(q + 1, r, d);
  }

  // ---- top tools ----

  /** `l.aiToolName || l.domain || "Unknown"`, as the property key it is counted under. */
  function ToolName(l: Object): string {
    ToJsString(Or(Or(Get(l, "aiToolName"), Get(l, "domain")), Str("Unknown")))
  }

  /** The tool names of the visit logs, in log order. */
  function VisitNames(logs: seq<Object>): seq<string> {
    var visits := OfType(logs, "ai_domain_visit");
    seq(|visits|, i requires 0 <= i < |visits| => ToolName(visits[i]))
  }

  /** The distinct names of `s` in order of first appearance (the key order of `toolCounts`). */
  function Distinct(s: seq<string>): (r: seq<string>)
    decreases |s|
  {
    if s == [] then []
    else
      var init := s[..|s| - 1];
      if s[|s| - 1] in init then Distinct(init) else Distinct(init) + [s[|s| - 1]]
  }

  predicate NoDuplicates<T(==)>(s: seq<T>) {
    forall i, j :: 0 <= i < j < |s| ==> s[i] != s[j]
  }

  /** The first-appearance order lists every name of `s` exactly once. */
  lemma {:induction false} DistinctIsOrderOfKeys(s: seq<string>)
    ensures NoDuplicates(Distinct(s))
    ensures forall x :: x in Distinct(s) <==> x in s
    decreases |s|
  {
    if s != [] {
      var init := s[..|s| - 1];
      DistinctIsOrderOfKeys(init);
      assert s == init + [s[|s| - 1]];
    }
  }

  /** `Object.entries(toolCounts)` for the counted names. */
  function Entries(names: seq<string>): seq<(string, nat)> {
    var keys := Distinct(names);
    seq(|keys|, i requires 0 <= i < |keys| => (keys[i], Occurrences(names, keys[i])))
  }

  /**
   * The `forEach` loop of `renderTopToolsChart` that builds `toolCounts`, returning
   * `Object.entries(toolCounts)`.
   */
  method CountByName(names: seq<string>) returns (entries: seq<(string, nat)>)
    ensures entries == Entries(names)
  {
    var counts: map<string, nat> := map[];
    var keys: seq<string> := [];
    for i := 0 to |names|
      invariant keys == Distinct(names[..i])
      invariant forall k :: k in counts <==> k in names[..i]
      invariant forall k :: k in counts ==> counts[k] == Occurrences(names[..i], k)
    {
      var name := names[i];
      CountStep(names, i);
      ghost var before := counts;
      if name in counts {
        counts := counts[name := counts[name] + 1];
      } else {
        counts := counts[name := 1];
        keys := keys + [name];
      }
      assert forall k :: k in counts ==> counts[k] == Occurrences(names[..i + 1], k) by {
        forall k | k in counts
          ensures counts[k] == Occurrences(names[..i + 1], k)
        {
          if k != name {
            assert counts[k] == before[k];
          } else if name !in before {
            assert Occurrences(names[..i], k) == 0 by {
              OccurrencesAbsent(names[..i], k);
            }
          }
        }
      }
    }
    assert names[..|names|] == names;
    DistinctIsOrderOfKeys(names);
    assert forall j :: 0 <= j < |keys| ==> keys[j] in counts;
    entries := seq(|keys|, j requires 0 <= j < |keys| => (keys[j], counts[keys[j]]));
  }

  /** What one more name changes: its count goes up by one, and it joins the key order if new. */
  lemma CountStep(names: seq<string>, i: int)
    requires 0 <= i < |names|
    ensures forall k :: Occurrences(names[..i + 1], k) ==
              Occurrences(names[..i], k) + (if k == names[i] then 1 else 0)
    ensures forall k :: k in names[..i + 1] <==> k in names[..i] || k == names[i]
    ensures Distinct(names[..i + 1]) ==
              if names[i] in names[..i] then Distinct(names[..i]) else Distinct(names[..i]) + [names[i]]
  {
    assert names[..i + 1] == names[..i] + [names[i]];
    assert names[..i + 1][..i] == names[..i];
    forall k
      ensures Occurrences(names[..i + 1], k) == Occurrences(names[..i], k) + (if k == names[i] then 1 else 0)
    {
      OccurrencesAppend(names[..i], [names[i]], k);
    }
  }

  /** The sum of the counts of `entries`. */
  function Total(entries: seq<(string, nat)>): nat
    decreases |entries|
  {
    if entries == [] then 0 else entries[0].1 + Total(entries[1..])
  }

  /** The sum over `keys` of their counts in `s`. */
  function CountOver(keys: seq<string>, s: seq<string>): nat
    decreases |keys|
  {
    if keys == [] then 0 else Occurrences(s, keys[0]) + CountOver(keys[1..], s)
  }

  lemma {:induction false} CountOverAppendName(keys: seq<string>, s: seq<string>, x: string)
    requires NoDuplicates(keys)
    ensures CountOver(keys, s + [x]) == CountOver(keys, s) + (if x in keys then 1 else 0)
    decreases |keys|
  {
    if keys != [] {
      OccurrencesAppend(s, [x], keys[0]);
      CountOverAppendName(keys[1..], s, x);
      if x == keys[0] {
        assert x !in keys[1..] by {
          forall k | 0 <= k < |keys[1..]| ensures keys[1..][k] != x {
            assert keys[k + 1] != keys[0];
          }
        }
      } else {
        assert (x in keys) == (x in keys[1..]) by {
          assert keys == [keys[0]] + keys[1..];
        }
      }
    }
  }

  lemma {:induction false} CountOverAppendKey(keys: seq<string>, k: string, s: seq<string>)
    ensures CountOver(keys + [k], s) == CountOver(keys, s) + Occurrences(s, k)
    decreases |keys|
  {
    if keys == [] {
      assert keys + [k] == [k];
    } else {
      assert (keys + [k])[1..] == keys[1..] + [k];
      CountOverAppendKey(keys[1..], k, s);
    }
  }

  /** Every counted name is counted once per visit log: the counts sum to the number of names. */
  lemma {:induction false} CountsSumToNames(s: seq<string>)
    ensures CountOver(Distinct(s), s) == |s|
    decreases |s|
  {
    if s != [] {
      var init := s[..|s| - 1];
      var x := s[|s| - 1];
      assert s == init + [x];
      CountsSumToNames(init);
      DistinctIsOrderOfKeys(init);
      CountOverAppendName(Distinct(init), init, x);
      if x !in init {
        CountOverAppendKey(Distinct(init), x, s);
        OccurrencesAppend(init, [x], x);
        assert Occurrences(init, x) == 0 by {
          OccurrencesAbsent(init, x);
        }
      }
    }
  }

  lemma {:induction false} OccurrencesAbsent(s: seq<string>, x: string)
    requires x !in s
    ensures Occurrences(s, x) == 0
    decreases |s|
  {
    if s != [] {
      assert x !in s[1..];
      OccurrencesAbsent(s[1..], x);
    }
  }

  lemma {:induction false} TotalIsCountOver(keys: seq<string>, s: seq<string>)
    ensures Total(seq(|keys|, i requires 0 <= i < |keys| => (keys[i], Occurrences(s, keys[i])))) == CountOver(keys, s)
    decreases |keys|
  {
    if keys != [] {
      var e := seq(|keys|, i requires 0 <= i < |keys| => (keys[i], Occurrences(s, keys[i])));
      TotalIsCountOver(keys[1..], s);
      assert e[1..] == seq(|keys[1..]|, i requires 0 <= i < |keys[1..]| => (keys[1..][i], Occurrences(s, keys[1..][i])));
    }
  }

  /** The pre-slice counts are positive, one per distinct name, and sum to the number of visit logs. */
  lemma EntriesCountEveryName(names: seq<string>)
    ensures Total(Entries(names)) == |names|
    ensures forall i :: 0 <= i < |Entries(names)| ==>
              Entries(names)[i].0 in names && Entries(names)[i].1 >= 1
  {
    CountsSumToNames(names);
    TotalIsCountOver(Distinct(names), names);
    DistinctIsOrderOfKeys(names);
    forall i | 0 <= i < |Entries(names)|
      ensures Entries(names)[i].1 >= 1
    {
      OccurrencesPresent(names, Entries(names)[i].0);
    }
  }

  lemma {:induction false} OccurrencesPresent(s: seq<string>, x: string)
    requires x in s
    ensures Occurrences(s, x) >= 1
    decreases |s|
  {
    if s[0] != x {
      assert x in s[1..] by {
        var k :| 0 <= k < |s| && s[k] == x;
        assert s[1..][k - 1] == x;
      }
      OccurrencesPresent(s[1..], x);
    }
  }

  // -- stable sort by descending count --

  /** Inserts `e` into a list sorted by descending count, after every entry with at least its count. */
  function Insert(e: (string, nat), s: seq<(string, nat)>): seq<(string, nat)>
    decreases |s|
  {
    if s == [] || s[0].1 < e.1 then [e] + s else [s[0]] + Insert(e, s[1..])
  }

  /** `.sort((a, b) => b[1] - a[1])`: a stable sort by descending count (insertion sort). */
  function SortByCount(s: seq<(string, nat)>): seq<(string, nat)>
    decreases |s|
  {
    if s == [] then [] else Insert(s[|s| - 1], SortByCount(s[..|s| - 1]))
  }

  predicate NonIncreasing(s: seq<(string, nat)>) {
    forall i, j :: 0 <= i < j < |s| ==> s[i].1 >= s[j].1
  }

  /** Inserting adds exactly `e`. */
  lemma {:induction false} InsertPermutes(e: (string, nat), s: seq<(string, nat)>)
    ensures multiset(Insert(e, s)) == multiset(s) + multiset{e}
    decreases |s|
  {
    if s != [] && s[0].1 >= e.1 {
      InsertPermutes(e, s[1..]);
      assert s == [s[0]] + s[1..];
    }
  }

  /** Inserting under a bound on the counts keeps the bound. */
  lemma {:induction false} InsertBounded(e: (string, nat), s: seq<(string, nat)>, m: nat)
    requires e.1 <= m && forall i :: 0 <= i < |s| ==> s[i].1 <= m
    ensures forall i :: 0 <= i < |Insert(e, s)| ==> Insert(e, s)[i].1 <= m
    decreases |s|
  {
    if s != [] && s[0].1 >= e.1 {
      InsertBounded(e, s[1..], m);
    }
  }

  lemma {:induction false} InsertKeepsOrder(e: (string, nat), s: seq<(string, nat)>)
    requires NonIncreasing(s)
    ensures NonIncreasing(Insert(e, s))
    decreases |s|
  {
    if s != [] && s[0].1 >= e.1 {
      InsertKeepsOrder(e, s[1..]);
      InsertBounded(e, s[1..], s[0].1);
    }
  }

  /** The sort orders by non-increasing count and is a permutation of its input. */
  lemma {:induction false} SortIsOrderedPermutation(s: seq<(string, nat)>)
    ensures NonIncreasing(SortByCount(s))
    ensures multiset(SortByCount(s)) == multiset(s)
    decreases |s|
  {
    if s != [] {
      SortIsOrderedPermutation(s[..|s| - 1]);
      InsertKeepsOrder(s[|s| - 1], SortByCount(s[..|s| - 1]));
      InsertPermutes(s[|s| - 1], SortByCount(s[..|s| - 1]));
      assert s == s[..|s| - 1] + [s[|s| - 1]];
    }
  }

  /** The most visits shown in the chart. */
  const TopToolCount: nat := 8

  /** The first `TopToolCount` entries of a ranking. */
  function TopOf(names: seq<string>): seq<(string, nat)> {
    var sorted := SortByCount(Entries(names));
    if |sorted| <= TopToolCount then sorted else sorted[..TopToolCount]
  }

  /** The bars of the top-tools chart: the eight most visited tools with their visit counts. */
  function TopTools(logs: seq<Object>): seq<(string, nat)> {
    TopOf(VisitNames(logs))
  }

  /** The ranking lists each counted name once, with its exact count. */
  lemma RankingFacts(names: seq<string>)
    ensures var sorted := SortByCount(Entries(names));
            && |sorted| == |Distinct(names)|
            && NonIncreasing(sorted)
            && (forall i :: 0 <= i < |sorted| ==>
                  sorted[i].0 in names && sorted[i].1 == Occurrences(names, sorted[i].0))
            && (forall i, j :: 0 <= i < j < |sorted| ==> sorted[i].0 != sorted[j].0)
            && (forall x :: x in names ==> exists k :: 0 <= k < |sorted| && sorted[k].0 == x)
  {
    var entries := Entries(names);
    var sorted := SortByCount(entries);
    SortIsOrderedPermutation(entries);
    DistinctIsOrderOfKeys(names);
    assert |sorted| == |entries| by {
      assert |multiset(sorted)| == |multiset(entries)|;
    }
    forall i | 0 <= i < |sorted|
      ensures sorted[i].0 in names && sorted[i].1 == Occurrences(names, sorted[i].0)
    {
      assert sorted[i] in multiset(entries);
    }
    assert NoDuplicates(entries);
    forall i, j | 0 <= i < j < |sorted|
      ensures sorted[i].0 != sorted[j].0
    {
      if sorted[i].0 == sorted[j].0 {
        RepeatedMultiplicity(sorted, i, j);
        NoDuplicatesMultiplicity(entries, sorted[i]);
      }
    }
    forall x | x in names
      ensures exists k :: 0 <= k < |sorted| && sorted[k].0 == x
    {
      var d :| 0 <= d < |Distinct(names)| && Distinct(names)[d] == x;
      assert entries[d] in multiset(sorted);
      var k :| 0 <= k < |sorted| && sorted[k] == entries[d];
    }
  }

  /**
   * The chart shows at most eight tools, by non-increasing visit count; each bar carries a
   * tool's exact number of visits and no tool appears twice.
   */
  lemma TopToolsAreRanked(logs: seq<Object>)
    ensures var names := VisitNames(logs);
            var top := TopTools(logs);
            && |top| <= TopToolCount
            && NonIncreasing(top)
            && (forall i :: 0 <= i < |top| ==> top[i].0 in names && top[i].1 == Occurrences(names, top[i].0))
            && (forall i, j :: 0 <= i < j < |top| ==> top[i].0 != top[j].0)
  {
    RankingFacts(VisitNames(logs));
  }

  /**
   * The chart holds the most visited tools: a visited tool left off it has no more visits
   * than any tool on it, and with eight or fewer tools every visited tool is on it.
   */
  lemma TopToolsAreTheMostVisited(logs: seq<Object>, x: string)
    requires x in VisitNames(logs)
    ensures var names := VisitNames(logs);
            var top := TopTools(logs);
            && ((forall j :: 0 <= j < |top| ==> top[j].0 != x) ==>
                  forall i :: 0 <= i < |top| ==> Occurrences(names, x) <= top[i].1)
            && (|Distinct(names)| <= TopToolCount ==> exists i :: 0 <= i < |top| && top[i].0 == x)
  {
    var names := VisitNames(logs);
    var sorted := SortByCount(Entries(names));
    var top := TopTools(logs);
    RankingFacts(names);
    assert top == sorted[..|top|];
    var k :| 0 <= k < |sorted| && sorted[k].0 == x;
    if k < |top| {
      assert top[k].0 == x;
    } else {
      forall i | 0 <= i < |top|
        ensures Occurrences(names, x) <= top[i].1
      {
        assert sorted[i].1 >= sorted[k].1;
      }
    }
  }

  lemma {:induction false} NoDuplicatesMultiplicity<T>(s: seq<T>, x: T)
    requires NoDuplicates(s)
    ensures multiset(s)[x] <= 1
    decreases |s|
  {
    if s != [] {
      assert s == [s[0]] + s[1..];
      NoDuplicatesMultiplicity(s[1..], x);
      if x == s[0] {
        assert x !in s[1..] by {
          forall k | 0 <= k < |s[1..]| ensures s[1..][k] != x {
            assert s[k + 1] != s[0];
          }
        }
      }
    }
  }

  lemma RepeatedMultiplicity<T>(s: seq<T>, i: int, j: int)
    requires 0 <= i < j < |s| && s[i] == s[j]
    ensures multiset(s)[s[i]] >= 2
  {
    assert s == s[..j] + s[j..];
    assert s[i] in s[..j];
    assert s[j] == s[j..][0];
  }

  // ---- logs table ----

  /** The type filter of the logs table: "all" keeps every log, any other value one type. */
  function FilterLogs(logs: seq<Object>, typeFilter: string): seq<Object> {
    if typeFilter == "all" then logs else OfType(logs, typeFilter)
  }

  function Reverse<T>(s: seq<T>): (r: seq<T>)
    ensures |r| == |s|
    decreases |s|
  {
    if s == [] then [] else Reverse(s[1..]) + [s[0]]
  }

  lemma {:induction false} ReverseIndex<T>(s: seq<T>)
    ensures forall i :: 0 <= i < |s| ==> Reverse(s)[i] == s[|s| - 1 - i]
    ensures multiset(Reverse(s)) == multiset(s)
    decreases |s|
  {
    if s != [] {
      ReverseIndex(s[1..]);
      assert s == [s[0]] + s[1..];
    }
  }

  /** The rows of the logs table, newest first: `[...filtered].reverse()`. */
  function LogTable(logs: seq<Object>, typeFilter: string): seq<Object> {
    Reverse(FilterLogs(logs, typeFilter))
  }

  /**
   * The table lists the filtered logs newest first: row `i` is the `i`-th filtered log
   * counted from the end. "all" shows every log; any other filter shows exactly the logs
   * of that type.
   */
  lemma LogTableIsFilteredNewestFirst(logs: seq<Object>, typeFilter: string)
    ensures var f := FilterLogs(logs, typeFilter);
            var rows := LogTable(logs, typeFilter);
            && |rows| == |f|
            && (forall i :: 0 <= i < |rows| ==> rows[i] == f[|f| - 1 - i])
            && (typeFilter == "all" ==> multiset(rows) == multiset(logs))
            && (typeFilter != "all" ==>
                  forall l :: l in rows <==> l in logs && Get(l, "type") == Str(typeFilter))
  {
    var f := FilterLogs(logs, typeFilter);
    ReverseIndex(f);
    OfTypeMembers(logs, typeFilter);
    assert forall l :: l in LogTable(logs, typeFilter) <==> l in multiset(f);
  }

  // ---- custom domains ----

  /** The manager's custom domains (`customDomains` in storage), edited in place by the monitoring tab. */
  class CustomDomainList {
    var domains: seq<DomainRule>

    /** `stored || []`. */
    constructor (stored: seq<DomainRule>)
      ensures domains == stored
    {
      domains := stored;
    }

    /**
     * The add button: the three inputs are trimmed, and an entry is appended only when
     * none of them is empty.
     */
    method Add(domainInput: string, nameInput: string, categoryInput: string) returns (added: bool)
      modifies this
      ensures added <==> Trim(domainInput) != "" && Trim(nameInput) != "" && Trim(categoryInput) != ""
      ensures added ==> domains == old(domains) + [DomainRule(Trim(domainInput), Trim(nameInput), Trim(categoryInput))]
      ensures !added ==> domains == old(domains)
    {
      var domain := Trim(domainInput);
      var name := Trim(nameInput);
      var category := Trim(categoryInput);
      if domain == "" || name == "" || category == "" {
        return false;
      }
      domains := domains + [DomainRule(domain, name, category)];
      return true;
    }

    /** A remove button: `customDomains.splice(idx, 1)`. */
    method Remove(idx: int)
      modifies this
      ensures domains == Spliced(old(domains), idx)
    {
      var start := SpliceStart(|domains|, idx);
      if start < |domains| {
        domains := domains[..start] + domains[start + 1..];
      }
    }
  }

  /** Where `splice(idx, …)` starts: a negative index counts from the end, and the start is clamped to the list. */
  function SpliceStart(len: nat, idx: int): (start: nat)
    ensures start <= len
  {
    if idx < 0 then (if len + idx < 0 then 0 else len + idx)
    else if idx > len then len
    else idx
  }

  /** The list after `splice(idx, 1)`. */
  function Spliced<T>(s: seq<T>, idx: int): seq<T> {
    var start := SpliceStart(|s|, idx);
    if start < |s| then s[..start] + s[start + 1..] else s
  }

  /**
   * Removing the index a row was rendered with deletes exactly that entry and keeps the
   * others in order; an index past the end changes nothing.
   */
  lemma RemoveDeletesExactlyIndex<T>(s: seq<T>, idx: int)
    ensures 0 <= idx < |s| ==>
              |Spliced(s, idx)| == |s| - 1 &&
              (forall i :: 0 <= i < idx ==> Spliced(s, idx)[i] == s[i]) &&
              (forall i :: idx <= i < |s| - 1 ==> Spliced(s, idx)[i] == s[i + 1])
    ensures idx >= |s| ==> Spliced(s, idx) == s
    ensures -|s| <= idx < 0 ==> Spliced(s, idx) == s[..|s| + idx] + s[|s| + idx + 1..]
  {
  }

  // ---- monitoring tab ----

  /** `monitoringConfig.defaultLevel || "lowest"`. */
  function ShownDefault(cfg: Object): Value {
    Or(Get(cfg, "defaultLevel"), Str("lowest"))
  }

  /** The level the summary table shows for a domain: `overrides[d.domain] || defaultLevel`. */
  function ShownLevel(cfg: Object, domain: string): Value {
    Or(Get(Policy.Overrides(cfg), domain), ShownDefault(cfg))
  }

  /** The "Override" badge: `!!overrides[d.domain]`. */
  predicate IsOverridden(cfg: Object, domain: string) {
    Truthy(Get(Policy.Overrides(cfg), domain))
  }

  /**
   * The table shows the override when the domain has one and the default otherwise, and it
   * agrees with the level the service worker applies whenever the stored value is one of
   * the canonical spellings.
   */
  lemma ShownLevelMatchesWorker(cfg: Object, domain: string)
    ensures IsOverridden(cfg, domain) ==> ShownLevel(cfg, domain) == Get(Policy.Overrides(cfg), domain)
    ensures !IsOverridden(cfg, domain) ==> ShownLevel(cfg, domain) == ShownDefault(cfg)
    ensures ShownLevel(cfg, domain) == Str("highest") ==> Policy.GetMonitoringLevelForDomain(cfg, domain) == "highest"
    ensures ShownLevel(cfg, domain) == Str("lowest") ==> Policy.GetMonitoringLevelForDomain(cfg, domain) == "lowest"
  {
    Policy.NormalizeFixedPoints();
  }

  /**
   * The badge and the applied level can disagree for a stored spelling the table does not
   * recognise: an override "HIGH" shows as not highest while the worker applies "highest".
   */
  lemma ShownLevelCanDisagree()
    ensures var cfg := map["siteOverrides" := Obj(map["claude.ai" := Str("HIGH")])];
            ShownLevel(cfg, "claude.ai") != Str("highest") &&
            Policy.GetMonitoringLevelForDomain(cfg, "claude.ai") == "highest"
  {
    Policy.NormalizeFixedPoints();
  }

  /** The override dropdown: the known domains without a (truthy) override, in order. */
  function DropdownDomains(domains: seq<DomainRule>, cfg: Object): (r: seq<DomainRule>)
    ensures |r| <= |domains|
    decreases |domains|
  {
    if domains == [] then []
    else (if IsOverridden(cfg, domains[0].domain) then [] else [domains[0]]) + DropdownDomains(domains[1..], cfg)
  }

  /** A domain is offered exactly when it is known and not yet overridden. */
  lemma {:induction false} DropdownExcludesOverridden(domains: seq<DomainRule>, cfg: Object)
    ensures forall d :: d in DropdownDomains(domains, cfg) <==> d in domains && !IsOverridden(cfg, d.domain)
    decreases |domains|
  {
    if domains != [] {
      DropdownExcludesOverridden(domains[1..], cfg);
      assert domains == [domains[0]] + domains[1..];
    }
  }
}
