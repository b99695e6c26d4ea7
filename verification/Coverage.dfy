/**
 * How one round's symbols are moved between the lists of its report and counted into coverage
 * buckets (web/src/app.ts).
 */
module Coverage {
  import opened Prelude

  /** The four lists of a `QuoteLoadReport`. */
  datatype Lists = Lists(fetched: seq<string>, servedFresh: seq<string>, deferred: seq<string>, failed: seq<string>)

  function Without(s: seq<string>, out: set<string>): (r: seq<string>)
    ensures forall x :: x in r <==> x in s && x !in out
    ensures Distinct(s) ==> Distinct(r)
  {
    if s == [] then []
    else
      var rest := Without(s[..|s| - 1], out);
      if s[|s| - 1] in out then rest else rest + [s[|s| - 1]]
  }

  function SetOf(s: seq<string>): set<string> { set x | x in s }

  lemma {:induction false} SetOfSnoc(s: seq<string>, x: string)
    ensures SetOf(s + [x]) == SetOf(s) + {x}
  {}

  // ---------------------------------------------------------------- folding in backup fills

  function AbsorbBackup(l: Lists, filled: seq<string>): Lists {
    Lists(PushNew(l.fetched, filled), l.servedFresh,
          Without(l.deferred, SetOf(filled)), Without(l.failed, SetOf(filled)))
  }

  /** What the safety net brought: symbols it fetched, those of them with a quote, and symbols it failed on. */
  datatype Net = Net(fetched: seq<string>, quoted: set<string>, failed: seq<string>)

  function FilledBy(net: Net): (r: seq<string>)
    ensures forall x :: x in r <==> x in net.fetched && x in net.quoted
    ensures Distinct(net.fetched) ==> Distinct(r)
  {
    Without(net.fetched, SetOf(net.fetched) - net.quoted)
  }

  /** The symbols of `s` that are still in `deferred`, each taken out as it is found. */
  function StillDeferred(s: seq<string>, deferred: set<string>): (r: seq<string>)
    ensures forall x :: x in r <==> x in s && x in deferred
    ensures Distinct(r)
  {
    if s == [] then []
    else
      var before := StillDeferred(s[..|s| - 1], deferred);
      if s[|s| - 1] in deferred && s[|s| - 1] !in before then before + [s[|s| - 1]] else before
  }

  function AbsorbNet(l: Lists, net: Net): Lists {
    var open := SetOf(l.deferred) - SetOf(FilledBy(net));
    Lists(l.fetched + FilledBy(net), l.servedFresh,
          Without(Unique(l.deferred), SetOf(FilledBy(net)) + SetOf(net.failed)),
          l.failed + StillDeferred(net.failed, open))
  }

  class Report {
    var fetched: seq<string>
    var servedFresh: seq<string>
    var deferred: seq<string>
    var failed: seq<string>

    ghost function View(): Lists
      reads this
    {
      Lists(fetched, servedFresh, deferred, failed)
    }

    constructor (l: Lists)
      ensures View() == l
    {
      fetched, servedFresh, deferred, failed := l.fetched, l.servedFresh, l.deferred, l.failed;
    }

    method AbsorbTiingoFallback(filled: seq<string>)
      modifies this
      ensures View() == if filled == [] then old(View()) else AbsorbBackup(old(View()), filled)
    {
      if |filled| == 0 { return; }
      var keep := SetOf(filled);
      deferred := Filter(deferred, keep);
      failed := Filter(failed, keep);
      for i := 0 to |filled|
        invariant fetched == PushNew(old(fetched), filled[..i])
        invariant servedFresh == old(servedFresh)
        invariant deferred == Without(old(deferred), keep) && failed == Without(old(failed), keep)
      {
        assert filled[..i + 1][..i] == filled[..i];
        if filled[i] !in fetched { fetched := fetched + [filled[i]]; }
      }
      assert filled[..|filled|] == filled;
    }

    /** `list.filter((symbol) => !out.has(symbol))`. */
    static method Filter(s: seq<string>, out: set<string>) returns (r: seq<string>)
      ensures r == Without(s, out)
    {
      r := [];
      for i := 0 to |s|
        invariant r == Without(s[..i], out)
      {
        assert s[..i + 1][..i] == s[..i];
        if s[i] !in out { r := r + [s[i]]; }
      }
      assert s[..|s|] == s;
    }

    /** `[...new Set(list)]`. */
    static method Deduplicated(s: seq<string>) returns (r: seq<string>)
      ensures r == Unique(s)
    {
      r := [];
      for i := 0 to |s|
        invariant r == Unique(s[..i])
      {
        assert s[..i + 1][..i] == s[..i];
        if s[i] !in r { r := r + [s[i]]; }
      }
      assert s[..|s|] == s;
    }

    /** Folds in a safety-net pass; what it leaves of the deferred list has no repetitions. */
    method AbsorbSafetyNet(net: Net) returns (filled: seq<string>)
      modifies this
      ensures View() == AbsorbNet(old(View()), net)
      ensures filled == FilledBy(net)
    {
      var open: set<string>;
      filled, open := CollectFills(net, SetOf(deferred));
      fetched := fetched + filled;
      var stuck := CollectFailures(net, open);
      failed := failed + stuck;
      var unique := Deduplicated(deferred);
      deferred := Filter(unique, SetOf(filled) + SetOf(net.failed));
    }

    static method CollectFills(net: Net, deferred: set<string>) returns (filled: seq<string>, open: set<string>)
      ensures filled == FilledBy(net) && open == deferred - SetOf(filled)
    {
      filled, open := [], deferred;
      ghost var unquoted := SetOf(net.fetched) - net.quoted;
      for i := 0 to |net.fetched|
        invariant filled == Without(net.fetched[..i], unquoted)
        invariant open == deferred - SetOf(filled)
      {
        assert net.fetched[..i + 1][..i] == net.fetched[..i];
        var s := net.fetched[i];
        if s in net.quoted {
          SetOfSnoc(filled, s);
          filled := filled + [s];
          open := open - {s};
        }
      }
      assert net.fetched[..|net.fetched|] == net.fetched;
    }

    static method CollectFailures(net: Net, deferred: set<string>) returns (stuck: seq<string>)
      ensures stuck == StillDeferred(net.failed, deferred)
    {
      stuck := [];
      var open := deferred;
      for i := 0 to |net.failed|
        invariant stuck == StillDeferred(net.failed[..i], deferred)
        invariant open == deferred - SetOf(stuck)
      {
        assert net.failed[..i + 1][..i] == net.failed[..i];
        var s := net.failed[i];
        if s in open {
          open := open - {s};
          stuck := stuck + [s];
        }
      }
      assert net.failed[..|net.failed|] == net.failed;
    }
  }

  // ---------------------------------------------------------------- the four lists stay a partition

  function All(l: Lists): set<string> {
    SetOf(l.fetched) + SetOf(l.servedFresh) + SetOf(l.deferred) + SetOf(l.failed)
  }

  /** No symbol is twice in one list, or in two lists, except that a fetched one may have been served fresh too. */
  ghost predicate Tidy(l: Lists) {
    && Distinct(l.fetched) && Distinct(l.servedFresh) && Distinct(l.deferred) && Distinct(l.failed)
    && (SetOf(l.fetched) + SetOf(l.servedFresh)) !! SetOf(l.deferred) !! SetOf(l.failed)
  }

  /** The symbols counted twice: fetched and served fresh. */
  function Doubled(l: Lists): set<string> { SetOf(l.fetched) * SetOf(l.servedFresh) }

  /** No symbol is in two lists, or twice in one. */
  ghost predicate Partition(l: Lists) {
    Tidy(l) && Doubled(l) == {}
  }

  function Live(l: Lists): nat { |l.fetched| + |l.servedFresh| }

  /** `liveRefreshProgress`. */
  function LiveRefreshProgress(l: Lists): (nat, nat) {
    var notLive := |l.deferred| + |l.failed|;
    var total := |l.fetched| + |l.servedFresh| + notLive;
    (total - notLive, total)
  }

  /** What is reported live is what was fetched or served fresh, and the rest of the total is not live. */
  lemma {:induction false} ProgressMeans(l: Lists)
    ensures LiveRefreshProgress(l) == (|l.fetched| + |l.servedFresh|,
                                       |l.fetched| + |l.servedFresh| + |l.deferred| + |l.failed|)
  {}

  lemma {:induction false} DistinctSize(s: seq<string>)
    requires Distinct(s)
    ensures |SetOf(s)| == |s|
  {
    if s == [] {
      assert SetOf(s) == {};
    } else {
      var front := s[..|s| - 1];
      DistinctPrefix(s, |front|);
      DistinctSize(front);
      assert SetOf(s) == SetOf(front) + {s[|s| - 1]};
    }
  }

  lemma {:induction false} PushNewGrows(s: seq<string>, more: seq<string>)
    ensures |s| <= |PushNew(s, more)|
  {
    if more != [] { PushNewGrows(s, more[..|more| - 1]); }
  }

  /**
   * Folding in backup fills adds the filled symbols, loses none and never lowers the live count; but a
   * fill of a symbol that was served fresh stays in that list too and is counted twice from then on.
   */
  lemma BackupDoubles(l: Lists, filled: seq<string>)
    requires Tidy(l)
    ensures var l' := AbsorbBackup(l, filled);
      && Tidy(l') && All(l') == All(l) + SetOf(filled)
      && Doubled(l') == Doubled(l) + SetOf(filled) * SetOf(l.servedFresh)
      && Live(l') >= Live(l)
  {
    var l' := AbsorbBackup(l, filled);
    PushNewGrows(l.fetched, filled);
    assert SetOf(l'.fetched) == SetOf(l.fetched) + SetOf(filled);
    assert SetOf(l'.deferred) == SetOf(l.deferred) - SetOf(filled);
    assert SetOf(l'.failed) == SetOf(l.failed) - SetOf(filled);
  }

  /** Symbol by symbol: the fills leave `deferred` and `failed` for `fetched`, and nothing else moves. */
  lemma {:induction false} BackupMoves(l: Lists, filled: seq<string>, s: string)
    ensures var l' := AbsorbBackup(l, filled);
      && (s in l'.fetched <==> s in l.fetched || s in filled)
      && (s in l'.deferred <==> s in l.deferred && s !in filled)
      && (s in l'.failed <==> s in l.failed && s !in filled)
      && l'.servedFresh == l.servedFresh
  {}

  /** So the lists stay a partition exactly when no filled symbol was served fresh. */
  lemma BackupKeepsPartition(l: Lists, filled: seq<string>)
    requires Partition(l)
    ensures var l' := AbsorbBackup(l, filled);
      && All(l') == All(l) + SetOf(filled)
      && Live(l') >= Live(l)
      && (Partition(l') <==> SetOf(filled) !! SetOf(l.servedFresh))
  {
    BackupDoubles(l, filled);
    var doubled := SetOf(filled) * SetOf(l.servedFresh);
    assert Doubled(AbsorbBackup(l, filled)) == doubled;
    if doubled == {} {
      forall s | s in SetOf(filled) ensures s !in SetOf(l.servedFresh) { assert s !in doubled; }
    }
  }

  /** What the net filled and what it gave up on are kept apart. */
  lemma NetLists(l: Lists, net: Net)
    ensures var l' := AbsorbNet(l, net);
      && SetOf(l'.fetched) == SetOf(l.fetched) + SetOf(FilledBy(net))
      && SetOf(l'.deferred) == SetOf(l.deferred) - SetOf(FilledBy(net)) - SetOf(net.failed)
      && SetOf(l'.failed) == SetOf(l.failed) + (SetOf(net.failed) * SetOf(l.deferred) - SetOf(FilledBy(net)))
  {}

  /**
   * Folding in a safety-net pass over outstanding symbols: if the pass fetched only symbols that were
   * still deferred, each once, the union is unchanged, nothing stops being live, and no symbol comes to
   * be counted twice.
   */
  lemma NetKeepsPartition(l: Lists, net: Net)
    requires Tidy(l) && Distinct(net.fetched)
    requires forall s :: s in FilledBy(net) ==> s in l.deferred
    ensures var l' := AbsorbNet(l, net);
      && Tidy(l') && All(l') == All(l) && Doubled(l') == Doubled(l) && Live(l') == Live(l) + |FilledBy(net)|
      && (Partition(l') <==> Partition(l))
  {
    NetLists(l, net);
    DistinctAppend(l.fetched, FilledBy(net));
    DistinctAppend(l.failed, StillDeferred(net.failed, SetOf(l.deferred) - SetOf(FilledBy(net))));
  }

  /** Every symbol counts once towards the total, and a doubled one twice. */
  lemma TidySize(l: Lists)
    requires Tidy(l)
    ensures LiveRefreshProgress(l).1 == |All(l)| + |Doubled(l)|
  {
    DistinctSize(l.fetched);
    DistinctSize(l.servedFresh);
    DistinctSize(l.deferred);
    DistinctSize(l.failed);
  }

  /**
   * Both folds in the order of a round, on any backup fills of symbols of the round and on net fills of
   * what is deferred after them: the same symbols stay listed and the live count never falls, but the
   * total rises by the number of fills that had been served fresh, and the lists stay a partition
   * exactly if there are none.
   */
  lemma RoundKeepsPartition(l: Lists, filled: seq<string>, net: Net)
    requires Partition(l) && Distinct(net.fetched) && SetOf(filled) <= All(l)
    requires forall s :: s in FilledBy(net) ==> s in l.deferred && s !in filled
    ensures var l' := AbsorbNet(AbsorbBackup(l, filled), net);
      var doubled := SetOf(filled) * SetOf(l.servedFresh);
      && Tidy(l') && All(l') == All(l) && Doubled(l') == doubled && (Partition(l') <==> doubled == {})
      && LiveRefreshProgress(l').1 == LiveRefreshProgress(l).1 + |doubled|
      && LiveRefreshProgress(l').0 >= LiveRefreshProgress(l).0
  {
    RoundDoubles(l, filled, net);
    TidySize(l);
    TidySize(AbsorbNet(AbsorbBackup(l, filled), net));
    assert Doubled(l) == {};
  }

  lemma RoundDoubles(l: Lists, filled: seq<string>, net: Net)
    requires Partition(l) && Distinct(net.fetched) && SetOf(filled) <= All(l)
    requires forall s :: s in FilledBy(net) ==> s in l.deferred && s !in filled
    ensures var l' := AbsorbNet(AbsorbBackup(l, filled), net);
      Tidy(l') && All(l') == All(l) && Doubled(l') == SetOf(filled) * SetOf(l.servedFresh) && Live(l') >= Live(l)
  {
    BackupDoubles(l, filled);
    NetKeepsPartition(AbsorbBackup(l, filled), net);
  }

  // ---------------------------------------------------------------- the whole book

  /** `bookCoverageReport`: untouched symbols of the book count as served fresh. */
  function BookCoverage(l: Lists, book: seq<string>): Lists {
    var touched := SetOf(l.fetched) + SetOf(l.deferred) + SetOf(l.failed);
    l.(servedFresh := PushNew(Unique(l.servedFresh), Without(book, touched + {""})))
  }

  method BookCoverageReport(l: Lists, book: seq<string>) returns (r: Lists)
    ensures r == BookCoverage(l, book)
  {
    var touched := SetOf(l.fetched) + SetOf(l.deferred) + SetOf(l.failed);
    var servedFresh := Report.Deduplicated(l.servedFresh);
    ghost var start := servedFresh;
    ghost var idle: seq<string> := [];
    for i := 0 to |book|
      invariant idle == Without(book[..i], touched + {""})
      invariant servedFresh == PushNew(start, idle)
    {
      assert book[..i + 1][..i] == book[..i];
      if book[i] != "" && book[i] !in touched {
        assert (idle + [book[i]])[..|idle|] == idle;
        idle := idle + [book[i]];
        if book[i] !in servedFresh { servedFresh := servedFresh + [book[i]]; }
      }
    }
    assert book[..|book|] == book;
    r := l.(servedFresh := servedFresh);
  }

  /**
   * After widening, every named book symbol is listed, no symbol has come to be counted twice, and no
   * other list has changed.
   */
  lemma BookIsCovered(l: Lists, book: seq<string>)
    requires Tidy(l)
    ensures var l' := BookCoverage(l, book);
      && Tidy(l') && All(l') == All(l) + (SetOf(book) - {""}) && Doubled(l') == Doubled(l)
      && l' == l.(servedFresh := l'.servedFresh) && (Partition(l') <==> Partition(l))
  {
    var touched := SetOf(l.fetched) + SetOf(l.deferred) + SetOf(l.failed);
    assert SetOf(BookCoverage(l, book).servedFresh) == SetOf(l.servedFresh) + (SetOf(book) - touched - {""});
  }

  // ---------------------------------------------------------------- coverage facts

  /** What the coverage summary asks of a symbol's quote. */
  datatype Quote = Quote(priced: bool, at: Option<int>, valueDate: Option<int>, atClose: bool)

  datatype Context = Context(now: int, marketOpen: bool, windowMs: int, settled: int, started: int,
                             nav: set<string>, quotes: map<string, Quote>)

  datatype Facts = Facts(marketTotal: nat, marketHeld: nat, marketFresh: nat, marketUpdating: nat, marketAtClose: nat,
                         navTotal: nat, navExpectedTonight: nat, navAwaiting: nat)

  const NO_FACTS: Facts := Facts(0, 0, 0, 0, 0, 0, 0, 0)

  predicate Held(c: Context, s: string) { s in c.quotes && c.quotes[s].priced }

  /** A cached price observed within the live window of an open session. */
  predicate StillLive(c: Context, s: string) {
    c.marketOpen && Held(c, s) && c.quotes[s].at.Some? && 0 <= c.now - c.quotes[s].at.value <= c.windowMs
  }

  function ValueDate(c: Context, s: string): Option<int> {
    if s in c.quotes then c.quotes[s].valueDate else None
  }

  /** One turn of the counting loop. */
  function Counted(f: Facts, c: Context, l: Lists, s: string): Facts {
    if s in c.nav then
      var held := ValueDate(c, s);
      var behind := held.None? || held.value < c.settled;
      f.(navTotal := f.navTotal + 1,
         navAwaiting := f.navAwaiting + (if behind then 1 else 0),
         navExpectedTonight :=
           f.navExpectedTonight + (if !behind && c.marketOpen && held.value < c.started then 1 else 0))
    else
      var live := s in l.fetched || StillLive(c, s);
      f.(marketTotal := f.marketTotal + 1,
         marketHeld := f.marketHeld + (if Held(c, s) then 1 else 0),
         marketFresh := f.marketFresh + (if live then 1 else 0),
         marketUpdating := f.marketUpdating + (if !live && Held(c, s) && s in l.deferred then 1 else 0),
         marketAtClose := f.marketAtClose + (if s in c.quotes && c.quotes[s].atClose then 1 else 0))
  }

  function FactsOf(c: Context, l: Lists, symbols: seq<string>): Facts {
    if symbols == [] then NO_FACTS
    else Counted(FactsOf(c, l, symbols[..|symbols| - 1]), c, l, symbols[|symbols| - 1])
  }

  function Symbols(l: Lists): seq<string> { l.fetched + l.servedFresh + l.deferred + l.failed }

  method BuildCoverageFacts(c: Context, l: Lists) returns (f: Facts)
    ensures f == FactsOf(c, l, Symbols(l))
  {
    var fetched, deferred := SetOf(l.fetched), SetOf(l.deferred);
    var symbols := l.fetched + l.servedFresh + l.deferred + l.failed;
    f := NO_FACTS;
    for i := 0 to |symbols|
      invariant f == FactsOf(c, l, symbols[..i])
    {
      assert symbols[..i + 1][..i] == symbols[..i];
      f := CountOne(f, c, l, fetched, deferred, symbols[i]);
    }
    assert symbols[..|symbols|] == symbols;
  }

  method CountOne(f: Facts, c: Context, l: Lists, fetched: set<string>, deferred: set<string>, s: string)
    returns (r: Facts)
    requires fetched == SetOf(l.fetched) && deferred == SetOf(l.deferred)
    ensures r == Counted(f, c, l, s)
  {
    r := f;
    if s in c.nav {
      r := r.(navTotal := r.navTotal + 1);
      var held := ValueDate(c, s);
      var behindSettled := held.None? || held.value < c.settled;
      if behindSettled {
        r := r.(navAwaiting := r.navAwaiting + 1);
      } else if c.marketOpen && held.value < c.started {
        r := r.(navExpectedTonight := r.navExpectedTonight + 1);
      }
    } else {
      r := r.(marketTotal := r.marketTotal + 1);
      var held := Held(c, s);
      if held { r := r.(marketHeld := r.marketHeld + 1); }
      var isFresh := s in fetched || StillLive(c, s);
      if isFresh {
        r := r.(marketFresh := r.marketFresh + 1);
      } else if held && s in deferred {
        r := r.(marketUpdating := r.marketUpdating + 1);
      }
      if s in c.quotes && c.quotes[s].atClose { r := r.(marketAtClose := r.marketAtClose + 1); }
    }
  }

  /** The buckets of `summarizeCoverage` while the market is open. */
  datatype Buckets = Buckets(live: nat, updating: nat, cached: nat, missing: nat)

  function Clamp(n: int): nat { if n > 0 then n else 0 }

  function BucketsOf(f: Facts): Buckets {
    var updating := Clamp(if f.marketUpdating <= f.marketHeld - f.marketFresh then f.marketUpdating
                          else f.marketHeld - f.marketFresh);
    Buckets(f.marketFresh, updating,
            Clamp(f.marketHeld - f.marketFresh - updating), Clamp(f.marketTotal - f.marketHeld))
  }

  /** Market symbols that were fetched but came without a price. */
  function Priceless(c: Context, l: Lists, symbols: seq<string>): nat {
    if symbols == [] then 0
    else
      var s := symbols[|symbols| - 1];
      Priceless(c, l, symbols[..|symbols| - 1])
      + if s !in c.nav && s in l.fetched && !Held(c, s) then 1 else 0
  }

  /** Market symbols that hold a price but are not live. */
  function Idle(c: Context, l: Lists, symbols: seq<string>): nat {
    if symbols == [] then 0
    else
      var s := symbols[|symbols| - 1];
      Idle(c, l, symbols[..|symbols| - 1])
      + if s !in c.nav && Held(c, s) && s !in l.fetched && !StillLive(c, s) then 1 else 0
  }

  lemma {:induction false} FactsAddUp(c: Context, l: Lists, symbols: seq<string>)
    ensures var f := FactsOf(c, l, symbols);
      && f.marketTotal + f.navTotal == |symbols|
      && f.marketHeld <= f.marketTotal
      && f.marketFresh + Idle(c, l, symbols) == f.marketHeld + Priceless(c, l, symbols)
      && f.marketUpdating <= Idle(c, l, symbols)
      && f.navAwaiting + f.navExpectedTonight <= f.navTotal
  {
    if symbols != [] { FactsAddUp(c, l, symbols[..|symbols| - 1]); }
  }

  /**
   * Every listed symbol is counted once, as a market holding or a NAV fund; and the four buckets of
   * the open-market summary add up to the market total exactly when no more fetched symbols came
   * without a price than held ones are idle.
   */
  lemma BucketsAddUp(c: Context, l: Lists)
    ensures var f, b := FactsOf(c, l, Symbols(l)), BucketsOf(FactsOf(c, l, Symbols(l)));
      && f.marketTotal + f.navTotal == |Symbols(l)|
      && (b.live + b.updating + b.cached + b.missing == f.marketTotal
          <==> Priceless(c, l, Symbols(l)) <= Idle(c, l, Symbols(l)))
  {
    FactsAddUp(c, l, Symbols(l));
  }

  lemma {:induction false} NoneWithoutPrice(c: Context, l: Lists, symbols: seq<string>)
    requires forall s :: s in l.fetched && s !in c.nav ==> Held(c, s)
    ensures Priceless(c, l, symbols) == 0
  {
    if symbols != [] { NoneWithoutPrice(c, l, symbols[..|symbols| - 1]); }
  }

  /**
   * From a round's lists, widened to the book, to the summary: with a price for each fetched symbol the
   * buckets add up, and market holdings and NAV funds together are the book and whatever else was
   * listed, each symbol once and a doubled one twice.
   */
  lemma BookAddsUp(c: Context, l: Lists, book: seq<string>)
    requires Tidy(l) && forall s :: s in l.fetched ==> Held(c, s)
    ensures var l' := BookCoverage(l, book);
      var f, b := FactsOf(c, l', Symbols(l')), BucketsOf(FactsOf(c, l', Symbols(l')));
      && b.live + b.updating + b.cached + b.missing == f.marketTotal
      && f.marketTotal + f.navTotal == |All(l) + (SetOf(book) - {""})| + |Doubled(l)|
  {
    var l' := BookCoverage(l, book);
    BookIsCovered(l, book);
    BucketsAddUp(c, l');
    NoneWithoutPrice(c, l', Symbols(l'));
    TidySize(l');
  }

  /**
   * From a partition through both folds and the widening: the summary counts every symbol once, and a
   * fill that had been served fresh twice.
   */
  lemma RoundAddsUp(c: Context, l: Lists, filled: seq<string>, net: Net, book: seq<string>)
    requires Partition(l) && Distinct(net.fetched) && SetOf(filled) <= All(l)
    requires forall s :: s in FilledBy(net) ==> s in l.deferred && s !in filled
    requires forall s :: s in AbsorbNet(AbsorbBackup(l, filled), net).fetched ==> Held(c, s)
    ensures var l' := BookCoverage(AbsorbNet(AbsorbBackup(l, filled), net), book);
      var f := FactsOf(c, l', Symbols(l'));
      f.marketTotal + f.navTotal
      == |All(l) + (SetOf(book) - {""})| + |SetOf(filled) * SetOf(l.servedFresh)|
  {
    RoundKeepsPartition(l, filled, net);
    BookAddsUp(c, AbsorbNet(AbsorbBackup(l, filled), net), book);
  }
}
