/**
 * `analyzeSiteSeo`: the report over all crawled pages. The average score, the
 * frequency of every improvement text across the pages, and those texts ranked by
 * frequency (ties in first-seen order).
 */
module SiteSeo {
  import opened Wrappers
  import opened PageExtractor
  import opened PageSeo

  /** One entry of `top_improvements`. */
  datatype ImprovementCount = ImprovementCount(issue: string, count: nat)

  datatype SiteSeoReport = SiteSeoReport(
    overallScore: int,
    totalPagesAnalyzed: nat,
    topImprovements: seq<ImprovementCount>,
    pages: seq<PageSeoResult>)

  /** `pagesData.map(analyzePageSeo)` */
  function PageResults(pages: seq<PageData>): seq<PageSeoResult> {
    seq(|pages|, i requires 0 <= i < |pages| => PageSeoOf(pages[i]))
  }

  /** The `reduce` that adds up the page scores. */
  function TotalScore(rs: seq<PageSeoResult>): int {
    if rs == [] then 0 else TotalScore(rs[..|rs| - 1]) + rs[|rs| - 1].score
  }

  /** Every improvement text of every page, page by page, in order. */
  function AllImprovements(rs: seq<PageSeoResult>): seq<string> {
    if rs == [] then [] else AllImprovements(rs[..|rs| - 1]) + rs[|rs| - 1].improvements
  }

  ghost predicate NoDup<T>(s: seq<T>) {
    forall i, j :: 0 <= i < j < |s| ==> s[i] != s[j]
  }

  /** The distinct elements of `s` in the order they first occur: the key order of a
      JavaScript object whose keys are never array indices. */
  function FirstSeen(s: seq<string>): (keys: seq<string>)
    ensures NoDup(keys)
    ensures forall m :: m in keys <==> m in s
  {
    if s == [] then []
    else
      var d := FirstSeen(s[..|s| - 1]);
      assert forall m :: m in s <==> m in s[..|s| - 1] || m == s[|s| - 1] by {
        assert s == s[..|s| - 1] + [s[|s| - 1]];
      }
      if s[|s| - 1] in d then d else d + [s[|s| - 1]]
  }

  /** The entries of the frequency map: each key with its number of occurrences in `s`. */
  function CountEntries(keys: seq<string>, s: seq<string>): (es: seq<ImprovementCount>)
    ensures |es| == |keys|
    ensures forall i :: 0 <= i < |keys| ==> es[i] == ImprovementCount(keys[i], multiset(s)[keys[i]])
  {
    if keys == [] then [] else CountEntries(keys[..|keys| - 1], s) + [ImprovementCount(keys[|keys| - 1], multiset(s)[keys[|keys| - 1]])]
  }

  /** `Object.entries(commonImprovements)` for the object that `counts` and `keys` represent. */
  function Entries(keys: seq<string>, counts: map<string, nat>): (es: seq<ImprovementCount>)
    requires forall m :: m in keys ==> m in counts
    ensures |es| == |keys|
    ensures forall i :: 0 <= i < |keys| ==> es[i] == ImprovementCount(keys[i], counts[keys[i]])
  {
    if keys == [] then [] else Entries(keys[..|keys| - 1], counts) + [ImprovementCount(keys[|keys| - 1], counts[keys[|keys| - 1]])]
  }

  /** Places `x` before the first entry whose count is not greater: the comparator
      `b - a` of the source, with an earlier entry kept ahead of equal ones. */
  function Insert(x: ImprovementCount, l: seq<ImprovementCount>): seq<ImprovementCount> {
    if l == [] || x.count >= l[0].count then [x] + l else [l[0]] + Insert(x, l[1..])
  }

  /** `.sort(([, a], [, b]) => b - a)`: `Array.prototype.sort` is stable, so this is the
      one ordering by descending count that keeps equal counts in their original order. */
  function Rank(es: seq<ImprovementCount>): seq<ImprovementCount> {
    if es == [] then [] else Insert(es[0], Rank(es[1..]))
  }

  /** The `top_improvements` of a list of page results. */
  function TopImprovements(rs: seq<PageSeoResult>): seq<ImprovementCount> {
    var all := AllImprovements(rs);
    Rank(CountEntries(FirstSeen(all), all))
  }

  /** The report over the page results `rs` of a non-empty list of pages. */
  function Report(rs: seq<PageSeoResult>): SiteSeoReport
    requires rs != []
  {
    SiteSeoReport(Round(TotalScore(rs) as real / |rs| as real), |rs|, TopImprovements(rs), rs)
  }

  /** The result `analyzeSiteSeo` returns: None for a missing or empty list. */
  function SiteSeoOf(pagesData: Option<seq<PageData>>): (r: Option<SiteSeoReport>)
    ensures r.None? <==> pagesData.None? || pagesData.value == []
    ensures r.Some? ==> r.value.totalPagesAnalyzed == |pagesData.value| && |r.value.pages| == |pagesData.value|
  {
    if pagesData.None? || pagesData.value == [] then None
    else Some(Report(PageResults(pagesData.value)))
  }

  /** `counts` with key order `keys` is the frequency object of the texts `s`. */
  ghost predicate TallyOf(counts: map<string, nat>, keys: seq<string>, s: seq<string>) {
    && keys == FirstSeen(s)
    && (forall m :: m in counts <==> m in keys)
    && (forall m :: m in counts ==> counts[m] == multiset(s)[m])
  }

  /** `commonImprovements[imp] || 0`: an absent key reads as 0. */
  function CountOr0(counts: map<string, nat>, imp: string): nat {
    if imp in counts then counts[imp] else 0
  }

  /** One more text in the tally. */
  lemma TallyPush(counts: map<string, nat>, keys: seq<string>, s: seq<string>, imp: string)
    requires TallyOf(counts, keys, s)
    ensures TallyOf(counts[imp := CountOr0(counts, imp) + 1], if imp in counts then keys else keys + [imp], s + [imp])
  {
    var counts' := counts[imp := CountOr0(counts, imp) + 1];
    var keys' := if imp in counts then keys else keys + [imp];
    FirstSeenSnoc(s, imp);
    assert keys' == FirstSeen(s + [imp]);
    assert forall m :: m in counts' <==> m in keys';
    assert multiset(s + [imp]) == multiset(s) + multiset{imp};
    forall m | m in counts'
      ensures counts'[m] == multiset(s + [imp])[m]
    {
      if m != imp {
        assert counts'[m] == counts[m];
      }
    }
  }

  lemma FirstSeenSnoc(s: seq<string>, x: string)
    ensures FirstSeen(s + [x]) == if x in FirstSeen(s) then FirstSeen(s) else FirstSeen(s) + [x]
  {
    assert (s + [x])[..|s + [x]| - 1] == s;
  }

  /** The entries of a frequency object are the counted entries of its texts. */
  lemma EntriesOfTally(counts: map<string, nat>, keys: seq<string>, s: seq<string>)
    requires forall m :: m in counts <==> m in keys
    requires forall m :: m in counts ==> counts[m] == multiset(s)[m]
    ensures Entries(keys, counts) == CountEntries(keys, s)
  {
  }

  /** The outer `forEach` over the page results, which fills `commonImprovements`.
      The object is the map `counts` together with its key insertion order `keys`. */
  method CountImprovements(pageResults: seq<PageSeoResult>) returns (counts: map<string, nat>, keys: seq<string>)
    ensures keys == FirstSeen(AllImprovements(pageResults))
    ensures forall m :: m in counts <==> m in keys
    ensures forall m :: m in counts ==> counts[m] == multiset(AllImprovements(pageResults))[m]
  {
    counts := map[];
    keys := [];
    for i := 0 to |pageResults|
      invariant TallyOf(counts, keys, AllImprovements(pageResults[..i]))
    {
      counts, keys := CountPage(counts, keys, pageResults[i].improvements, AllImprovements(pageResults[..i]));
      assert pageResults[..i + 1][..i] == pageResults[..i];
    }
    assert pageResults[..|pageResults|] == pageResults;
  }

  /** The inner `forEach` over one page's improvements, on a frequency object that
      already holds the texts `seen`. */
  method CountPage(counts: map<string, nat>, keys: seq<string>, imps: seq<string>, ghost seen: seq<string>)
    returns (counts': map<string, nat>, keys': seq<string>)
    requires TallyOf(counts, keys, seen)
    ensures TallyOf(counts', keys', seen + imps)
  {
    counts', keys' := counts, keys;
    ghost var done := seen;
    for j := 0 to |imps|
      invariant done == seen + imps[..j]
      invariant TallyOf(counts', keys', done)
    {
      counts', keys' := CountOne(counts', keys', imps[j], done);
      done := done + [imps[j]];
      SliceStep(seen, imps, j);
    }
    SliceStep(seen, imps, |imps|);
  }

  lemma SliceStep(seen: seq<string>, imps: seq<string>, j: nat)
    requires j <= |imps|
    ensures j < |imps| ==> (seen + imps[..j]) + [imps[j]] == seen + imps[..j + 1]
    ensures j == |imps| ==> seen + imps[..j] == seen + imps
  {
    if j < |imps| {
      assert imps[..j + 1] == imps[..j] + [imps[j]];
    } else {
      assert imps[..j] == imps;
    }
  }

  /** The callback of the inner `forEach`:
      `commonImprovements[imp] = (commonImprovements[imp] || 0) + 1`. A new key goes
      to the end of the key order. */
  method CountOne(counts: map<string, nat>, keys: seq<string>, imp: string, ghost seen: seq<string>)
    returns (counts': map<string, nat>, keys': seq<string>)
    requires TallyOf(counts, keys, seen)
    ensures TallyOf(counts', keys', seen + [imp])
  {
    TallyPush(counts, keys, seen, imp);
    keys' := if imp in counts then keys else keys + [imp];
    counts' := counts[imp := CountOr0(counts, imp) + 1];
  }

  /** `analyzeSiteSeo(pagesData)` */
  method AnalyzeSiteSeo(pagesData: Option<seq<PageData>>) returns (r: Option<SiteSeoReport>)
    ensures r == SiteSeoOf(pagesData)
  {
    if pagesData.None? || |pagesData.value| == 0 {
      return None;
    }
    var pages := pagesData.value;
    var pageResults := PageResults(pages);
    var totalScore := TotalScore(pageResults);
    var averageScore := Round(totalScore as real / |pageResults| as real);
    var counts, keys := CountImprovements(pageResults);
    var entries := Entries(keys, counts);
    EntriesOfTally(counts, keys, AllImprovements(pageResults));
    var topImprovements := Rank(entries);
    r := Some(SiteSeoReport(averageScore, |pages|, topImprovements, pageResults));
  }

  // ---------------------------------------------------------------------------
  // The ranking

  predicate SortedByCount(es: seq<ImprovementCount>) {
    forall i, j :: 0 <= i < j < |es| ==> es[i].count >= es[j].count
  }

  /** The entries with count `c`, in order. */
  function WithCount(es: seq<ImprovementCount>, c: nat): seq<ImprovementCount> {
    if es == [] then [] else (if es[0].count == c then [es[0]] else []) + WithCount(es[1..], c)
  }

  function SumCounts(es: seq<ImprovementCount>): nat {
    if es == [] then 0 else es[0].count + SumCounts(es[1..])
  }

  /** Inserting adds exactly `x` to the entries. */
  lemma {:induction false} InsertPerm(x: ImprovementCount, l: seq<ImprovementCount>)
    ensures multiset(Insert(x, l)) == multiset{x} + multiset(l)
    ensures SumCounts(Insert(x, l)) == x.count + SumCounts(l)
    decreases |l|
  {
    if l != [] && x.count < l[0].count {
      InsertPerm(x, l[1..]);
      assert l == [l[0]] + l[1..];
      assert Insert(x, l)[1..] == Insert(x, l[1..]);
    }
  }

  /** `x` only moves past entries with a greater count, so among the entries of any
      one count it stays first. */
  lemma {:induction false} InsertWithCount(x: ImprovementCount, l: seq<ImprovementCount>, c: nat)
    ensures WithCount(Insert(x, l), c) == (if x.count == c then [x] else []) + WithCount(l, c)
    decreases |l|
  {
    var r := Insert(x, l);
    var mine: seq<ImprovementCount> := if x.count == c then [x] else [];
    if l == [] || x.count >= l[0].count {
      assert r == [x] + l;
      assert r[0] == x && r[1..] == l;
      assert WithCount(r, c) == mine + WithCount(l, c);
    } else {
      var rest := Insert(x, l[1..]);
      var first: seq<ImprovementCount> := if l[0].count == c then [l[0]] else [];
      InsertWithCount(x, l[1..], c);
      assert r == [l[0]] + rest;
      assert r[0] == l[0] && r[1..] == rest;
      var tail := WithCount(l[1..], c);
      assert WithCount(r, c) == first + (mine + tail);
      assert WithCount(l, c) == first + tail;
      assert first + (mine + tail) == mine + (first + tail) by {
        if mine == [] {
          assert mine + tail == tail;
        } else {
          assert first == [];
        }
      }
    }
  }

  /** Each count is at least the next one. */
  predicate Descending(es: seq<ImprovementCount>) {
    |es| <= 1 || (es[0].count >= es[1].count && Descending(es[1..]))
  }

  /** Counts that descend step by step descend between any two positions. */
  lemma {:induction false} DescendingSorted(es: seq<ImprovementCount>)
    requires Descending(es)
    ensures SortedByCount(es)
  {
    if |es| > 1 {
      var tail := es[1..];
      DescendingSorted(tail);
      forall i, j | 0 <= i < j < |es|
        ensures es[i].count >= es[j].count
      {
        assert es[j] == tail[j - 1];
        if i > 0 {
          assert es[i] == tail[i - 1];
        } else if j > 1 {
          assert tail[0].count >= tail[j - 1].count;
        }
      }
    }
  }

  /** Inserting into a descending list keeps it descending: `x` goes in front of the
      first entry it is not smaller than. */
  lemma {:induction false} InsertSorted(x: ImprovementCount, l: seq<ImprovementCount>)
    requires Descending(l)
    ensures Descending(Insert(x, l))
    ensures Insert(x, l) != [] && Insert(x, l)[0] == (if l == [] || x.count >= l[0].count then x else l[0])
    decreases |l|
  {
    if l != [] && x.count < l[0].count {
      var r := Insert(x, l);
      var rest := Insert(x, l[1..]);
      InsertSorted(x, l[1..]);
      assert r == [l[0]] + rest;
      assert r[1..] == rest;
      if |l| > 1 {
        assert rest[0] == x || rest[0] == l[1];
      }
    } else {
      assert Insert(x, l)[1..] == l;
    }
  }

  /** The ranking is sorted by descending count, holds the same entries, keeps
      equal counts in their original order and keeps the sum of the counts. */
  lemma {:induction false} RankFacts(es: seq<ImprovementCount>)
    ensures SortedByCount(Rank(es))
    ensures multiset(Rank(es)) == multiset(es)
    ensures forall c :: WithCount(Rank(es), c) == WithCount(es, c)
    ensures SumCounts(Rank(es)) == SumCounts(es)
  {
    RankDescending(es);
    DescendingSorted(Rank(es));
    RankPerm(es);
  }

  lemma {:induction false} RankDescending(es: seq<ImprovementCount>)
    ensures Descending(Rank(es))
  {
    if es != [] {
      RankDescending(es[1..]);
      InsertSorted(es[0], Rank(es[1..]));
    }
  }

  lemma {:induction false} RankPerm(es: seq<ImprovementCount>)
    ensures multiset(Rank(es)) == multiset(es)
    ensures forall c :: WithCount(Rank(es), c) == WithCount(es, c)
    ensures SumCounts(Rank(es)) == SumCounts(es)
  {
    if es != [] {
      RankPerm(es[1..]);
      InsertPerm(es[0], Rank(es[1..]));
      assert es == [es[0]] + es[1..];
      forall c
        ensures WithCount(Rank(es), c) == WithCount(es, c)
      {
        InsertWithCount(es[0], Rank(es[1..]), c);
      }
    }
  }

  // ---------------------------------------------------------------------------
  // The frequency map

  /** Adding one occurrence of `x` to a tally over distinct keys raises its sum by one
      when `x` is already a key. */
  lemma {:induction false} SumAddOne(keys: seq<string>, s: seq<string>, x: string)
    requires NoDup(keys)
    ensures SumCounts(CountEntries(keys, s + [x])) == SumCounts(CountEntries(keys, s)) + (if x in keys then 1 else 0)
    decreases |keys|
  {
    if keys != [] {
      var init := keys[..|keys| - 1];
      var last := keys[|keys| - 1];
      assert NoDup(init);
      SumAddOne(init, s, x);
      SumSnoc(CountEntries(init, s + [x]), ImprovementCount(last, multiset(s + [x])[last]));
      SumSnoc(CountEntries(init, s), ImprovementCount(last, multiset(s)[last]));
      assert CountEntries(keys, s + [x]) == CountEntries(init, s + [x]) + [ImprovementCount(last, multiset(s + [x])[last])];
      assert CountEntries(keys, s) == CountEntries(init, s) + [ImprovementCount(last, multiset(s)[last])];
      assert multiset(s + [x]) == multiset(s) + multiset{x};
      assert keys == init + [last];
      assert x in keys <==> x in init || x == last;
      if x == last {
        assert x !in init;
      }
    }
  }

  lemma {:induction false} SumSnoc(es: seq<ImprovementCount>, e: ImprovementCount)
    ensures SumCounts(es + [e]) == SumCounts(es) + e.count
    decreases |es|
  {
    if es != [] {
      assert (es + [e])[1..] == es[1..] + [e];
      SumSnoc(es[1..], e);
    }
  }

  /** A key that does not occur in `s` has count zero. */
  lemma {:induction false} TallyAfterNewKey(keys: seq<string>, s: seq<string>, x: string)
    requires x !in s
    ensures SumCounts(CountEntries(keys + [x], s + [x])) == SumCounts(CountEntries(keys, s + [x])) + 1
  {
    SumSnoc(CountEntries(keys, s + [x]), ImprovementCount(x, multiset(s + [x])[x]));
    assert CountEntries(keys + [x], s + [x]) == CountEntries(keys, s + [x]) + [ImprovementCount(x, multiset(s + [x])[x])];
    assert multiset(s + [x]) == multiset(s) + multiset{x};
    assert multiset(s)[x] == 0;
  }

  /** The counts of the distinct texts add up to the number of texts. */
  lemma {:induction false} TallySum(s: seq<string>)
    ensures SumCounts(CountEntries(FirstSeen(s), s)) == |s|
    decreases |s|
  {
    if s != [] {
      var init := s[..|s| - 1];
      var x := s[|s| - 1];
      assert s == init + [x];
      TallySum(init);
      var d := FirstSeen(init);
      SumAddOne(d, init, x);
      if x !in d {
        TallyAfterNewKey(d, init, x);
      }
    }
  }

  // ---------------------------------------------------------------------------
  // Properties of the report

  /** `top_improvements` names each improvement text of the pages exactly once, with the
      number of times it occurs across all pages; the counts add up to the number of
      improvements; the list is sorted by descending count, and equal counts keep the
      order in which their texts were first seen. */
  lemma TopImprovementsFacts(rs: seq<PageSeoResult>)
    ensures var top := TopImprovements(rs); var all := AllImprovements(rs);
      && SortedByCount(top)
      && multiset(top) == multiset(CountEntries(FirstSeen(all), all))
      && (forall c :: WithCount(top, c) == WithCount(CountEntries(FirstSeen(all), all), c))
      && SumCounts(top) == |all|
    ensures forall e :: e in TopImprovements(rs) <==>
      e.issue in AllImprovements(rs) && e.count == multiset(AllImprovements(rs))[e.issue]
  {
    var all := AllImprovements(rs);
    var es := CountEntries(FirstSeen(all), all);
    RankFacts(es);
    TallySum(all);
    forall e
      ensures e in TopImprovements(rs) <==> e.issue in all && e.count == multiset(all)[e.issue]
    {
      assert e in TopImprovements(rs) <==> e in multiset(es);
      if e in es {
        var k :| 0 <= k < |es| && es[k] == e;
        assert FirstSeen(all)[k] in FirstSeen(all);
      }
      if e.issue in all && e.count == multiset(all)[e.issue] {
        var k :| 0 <= k < |FirstSeen(all)| && FirstSeen(all)[k] == e.issue;
        assert es[k] == e;
      }
    }
  }

  /** No text appears twice in `top_improvements`. */
  lemma TopImprovementsDistinct(rs: seq<PageSeoResult>)
    ensures forall i, j :: 0 <= i < j < |TopImprovements(rs)| ==> TopImprovements(rs)[i].issue != TopImprovements(rs)[j].issue
  {
    var all := AllImprovements(rs);
    var keys := FirstSeen(all);
    var es := CountEntries(keys, all);
    RankFacts(es);
    TallyEntriesOnce(keys, all);
    DistinctIssues(TopImprovements(rs), es);
  }

  /** Over distinct keys, every entry occurs once and its issue determines it. */
  lemma TallyEntriesOnce(keys: seq<string>, s: seq<string>)
    requires NoDup(keys)
    ensures var es := CountEntries(keys, s);
      && (forall a :: 0 <= a < |es| ==> multiset(es)[es[a]] == 1)
      && (forall e1, e2 :: e1 in es && e2 in es && e1.issue == e2.issue ==> e1 == e2)
  {
    var es := CountEntries(keys, s);
    forall a | 0 <= a < |es|
      ensures multiset(es)[es[a]] == 1
    {
      CountOneDistinct(keys, s, a);
    }
    forall e1, e2 | e1 in es && e2 in es && e1.issue == e2.issue
      ensures e1 == e2
    {
      var k1 :| 0 <= k1 < |es| && es[k1] == e1;
      var k2 :| 0 <= k2 < |es| && es[k2] == e2;
      assert keys[k1] == keys[k2];
    }
  }

  /** A permutation of entries that each occur once, and whose issue determines the
      entry, names no issue twice. */
  lemma DistinctIssues(top: seq<ImprovementCount>, es: seq<ImprovementCount>)
    requires multiset(top) == multiset(es)
    requires forall a :: 0 <= a < |es| ==> multiset(es)[es[a]] == 1
    requires forall e1, e2 :: e1 in es && e2 in es && e1.issue == e2.issue ==> e1 == e2
    ensures forall i, j :: 0 <= i < j < |top| ==> top[i].issue != top[j].issue
  {
    forall i, j | 0 <= i < j < |top|
      ensures top[i].issue != top[j].issue
    {
      assert top[i] in multiset(es) && top[j] in multiset(es);
      if top[i].issue == top[j].issue {
        assert top[i] == top[j];
        TwoPositions(top, i, j);
      }
    }
  }

  /** An entry of a tally over distinct keys occurs in it once. */
  lemma {:induction false} CountOneDistinct(keys: seq<string>, s: seq<string>, a: nat)
    requires NoDup(keys) && a < |keys|
    ensures multiset(CountEntries(keys, s))[CountEntries(keys, s)[a]] == 1
    decreases |keys|
  {
    var es := CountEntries(keys, s);
    var init := keys[..|keys| - 1];
    assert es == CountEntries(init, s) + [es[|keys| - 1]];
    assert NoDup(init);
    var e := es[a];
    if a == |keys| - 1 {
      assert e !in CountEntries(init, s);
    } else {
      CountOneDistinct(init, s, a);
      assert CountEntries(init, s)[a] == e;
      assert es[|keys| - 1] != e by {
        assert keys[|keys| - 1] != keys[a];
      }
    }
  }

  /** A value found at two positions occurs at least twice. */
  lemma {:induction false} TwoPositions<T>(s: seq<T>, i: nat, j: nat)
    requires i < j < |s| && s[i] == s[j]
    ensures multiset(s)[s[i]] >= 2
  {
    assert s == s[..i] + [s[i]] + s[i + 1..j] + [s[j]] + s[j + 1..];
  }

  /** The page results keep the input order. */
  lemma PagesInOrder(pagesData: Option<seq<PageData>>)
    requires SiteSeoOf(pagesData).Some?
    ensures forall i :: 0 <= i < |pagesData.value| ==> SiteSeoOf(pagesData).value.pages[i] == PageSeoOf(pagesData.value[i])
  {
  }

  /** Two pages that share an improvement, one of them with a second one: the shared
      text ranks first with count 2. */
  lemma SharedIssueRanksFirst(r1: PageSeoResult, r2: PageSeoResult, a: string, b: string)
    requires r1.improvements == [a, b] && r2.improvements == [a] && a != b
    ensures TopImprovements([r1, r2]) == [ImprovementCount(a, 2), ImprovementCount(b, 1)]
  {
    TwoPages(r1, r2);
    assert r1.improvements + r2.improvements == [a, b] + [a];
    FirstSeenTwo(a, b, [a, b] + [a]);
    assert multiset([a, b] + [a])[a] == 2 && multiset([a, b] + [a])[b] == 1;
    RankTwo(ImprovementCount(a, 2), ImprovementCount(b, 1));
  }

  /** Two pages with one different improvement each: equal counts keep the order in
      which the texts were first seen. */
  lemma TiesKeepFirstSeen(r1: PageSeoResult, r2: PageSeoResult, a: string, b: string)
    requires r1.improvements == [a] && r2.improvements == [b] && a != b
    ensures TopImprovements([r1, r2]) == [ImprovementCount(a, 1), ImprovementCount(b, 1)]
  {
    TwoPages(r1, r2);
    assert r1.improvements + r2.improvements == [a] + [b];
    FirstSeenTwo(a, b, [a] + [b]);
    assert multiset([a] + [b])[a] == 1 && multiset([a] + [b])[b] == 1;
    RankTwo(ImprovementCount(a, 1), ImprovementCount(b, 1));
  }

  lemma TwoPages(r1: PageSeoResult, r2: PageSeoResult)
    ensures AllImprovements([r1, r2]) == r1.improvements + r2.improvements
  {
    assert [r1, r2][..1] == [r1];
    assert [r1][..0] == [];
    assert AllImprovements([r1]) == [] + r1.improvements;
    assert AllImprovements([r1, r2]) == AllImprovements([r1]) + r2.improvements;
  }

  /** The distinct texts of `[a, b]` and `[a, b, a]`, in first-seen order. */
  lemma FirstSeenTwo(a: string, b: string, s: seq<string>)
    requires a != b && (s == [a] + [b] || s == [a, b] + [a])
    ensures FirstSeen(s) == [a, b]
  {
    assert [a][..0] == [];
    assert FirstSeen([a]) == [a];
    assert ([a] + [b])[..1] == [a];
    assert FirstSeen([a] + [b]) == [a, b];
    if s == [a, b] + [a] {
      assert s[..2] == [a] + [b];
    }
  }

  lemma RankTwo(x: ImprovementCount, y: ImprovementCount)
    requires x.count >= y.count
    ensures Rank([x, y]) == [x, y]
  {
    assert [x, y][1..] == [y];
    assert [y][1..] == [];
    assert Rank([y]) == Insert(y, []) == [y];
    assert Rank([x, y]) == Insert(x, [y]);
  }

  /** A single page gives an overall score equal to its own score. */
  lemma SinglePage(r: PageSeoResult)
    ensures Report([r]).overallScore == r.score
  {
    assert [r][..0] == [];
    assert TotalScore([r]) == r.score;
  }

  lemma {:induction false} TotalScoreBounds(rs: seq<PageSeoResult>)
    requires forall i :: 0 <= i < |rs| ==> 0 <= rs[i].score <= 100
    ensures 0 <= TotalScore(rs) <= 100 * |rs|
  {
    if rs != [] {
      TotalScoreBounds(rs[..|rs| - 1]);
    }
  }

  /** The overall score is a mean of the page scores, so it lies between their bounds. */
  lemma OverallInRange(rs: seq<PageSeoResult>)
    requires rs != []
    requires forall i :: 0 <= i < |rs| ==> 0 <= rs[i].score <= 100
    ensures 0 <= Report(rs).overallScore <= 100
  {
    TotalScoreBounds(rs);
    var n := |rs| as real;
    var avg := TotalScore(rs) as real / n;
    assert 0.0 <= avg <= 100.0 by {
      assert avg * n == TotalScore(rs) as real;
    }
  }

  /** Every page record the extractor builds has no more images without alt text than
      images, so every crawl gets an overall score between 0 and 100. */
  lemma SiteScoreInRange(pages: seq<PageData>)
    requires pages != []
    requires forall i :: 0 <= i < |pages| ==> pages[i].media.imagesWithoutAlt <= pages[i].media.totalImages
    ensures 0 <= SiteSeoOf(Some(pages)).value.overallScore <= 100
  {
    var rs := PageResults(pages);
    forall i | 0 <= i < |rs|
      ensures 0 <= rs[i].score <= 100
    {
      ScoreInRange(pages[i]);
    }
    OverallInRange(rs);
  }
}
