/** `union_seconds` and `summary` of `timelog_control.py`: totals as a measure. */
module TimelogTotals {
  import opened Text

  /** A timestamp field: absent, unreadable, or an epoch with or without an explicit zone. */
  datatype Stamp = Missing | Unreadable | At(epoch: int, zoned: bool)

  datatype Block = Block(start: Stamp, end: Stamp, state: string, day: string)

  datatype Interval = Interval(start: int, end: int)

  datatype Report = Report(
    total: Option<int>, closed: int, openElapsed: int, openCount: nat,
    intervalCount: nat, overlaps: nat, merged: seq<Interval>)

  // ------------------------------------------------------------------ one block

  /** `duration_seconds` of `describe_block`. */
  function Duration(b: Block): Option<int> {
    if b.start.At? && b.end.At? && b.start.epoch <= b.end.epoch
    then Some(b.end.epoch - b.start.epoch) else None
  }

  predicate Counted(b: Block) { b.state != "archived" && b.state != "suppressed" }

  predicate Eligible(b: Block) { Counted(b) && Duration(b).Some? }

  predicate IsOpen(b: Block) { Counted(b) && b.end.Missing? }

  function Elapsed(b: Block, now: int): int {
    if IsOpen(b) && b.start.At? && b.start.epoch < now then now - b.start.epoch else 0
  }

  function OpenElapsed(blocks: seq<Block>, now: int): int {
    if blocks == [] then 0 else Elapsed(blocks[0], now) + OpenElapsed(blocks[1..], now)
  }

  function OpenCount(blocks: seq<Block>): nat {
    if blocks == [] then 0 else (if IsOpen(blocks[0]) then 1 else 0) + OpenCount(blocks[1..])
  }

  function IntervalsOf(blocks: seq<Block>): seq<Interval> {
    if blocks == [] then []
    else
      (if Eligible(blocks[0]) then [Interval(blocks[0].start.epoch, blocks[0].end.epoch)] else [])
      + IntervalsOf(blocks[1..])
  }

  // ------------------------------------------------------------------ the measure

  /** An interval holds its start, and every instant up to but not its end. */
  predicate Holds(i: Interval, t: int) { i.start <= t < i.end }

  predicate Worked(b: Block, t: int) { Eligible(b) && b.start.epoch <= t < b.end.epoch }

  function Span(i: Interval): set<int> { set t | i.start <= t < i.end && Holds(i, t) }

  function Cover(xs: seq<Interval>): set<int> {
    set x, t | x in xs && x.start <= t < x.end && Holds(x, t) :: t
  }

  /** The instants covered by at least one eligible closed block. */
  function Instants(blocks: seq<Block>): set<int> {
    set b, t | b in blocks && Eligible(b) && b.start.epoch <= t < b.end.epoch && Worked(b, t) :: t
  }

  lemma {:induction false} SpanSize(i: Interval)
    requires i.start <= i.end
    ensures |Span(i)| == i.end - i.start
    decreases i.end - i.start
  {
    if i.start < i.end {
      var j := Interval(i.start, i.end - 1);
      SpanSize(j);
      assert Span(i) == Span(j) + {i.end - 1};
    } else {
      assert Span(i) == {};
    }
  }

  lemma {:induction false} IntervalsCover(blocks: seq<Block>)
    ensures Cover(IntervalsOf(blocks)) == Instants(blocks)
    ensures forall x | x in IntervalsOf(blocks) :: x.start <= x.end
  {
    if blocks != [] {
      var b, more := blocks[0], blocks[1..];
      IntervalsCover(more);
      var own := if Eligible(b) then [Interval(b.start.epoch, b.end.epoch)] else [];
      CoverConcat(own, IntervalsOf(more));
      OwnCover(b);
      InstantsConcat([b], more);
      assert [b] + more == blocks;
    }
  }

  lemma OwnCover(b: Block)
    ensures Cover(if Eligible(b) then [Interval(b.start.epoch, b.end.epoch)] else []) == Instants([b])
  {
    if Eligible(b) {
      var x := Interval(b.start.epoch, b.end.epoch);
      CoverOne(x);
      forall t ensures t in Instants([b]) <==> Holds(x, t) {
        assert [b][0] in [b];
        assert Worked(b, t) <==> Holds(x, t);
      }
    }
  }

  lemma CoverConcat(a: seq<Interval>, b: seq<Interval>)
    ensures Cover(a + b) == Cover(a) + Cover(b)
  {
    forall t ensures t in Cover(a + b) <==> t in Cover(a) || t in Cover(b) {
      if t in Cover(a) {
        var x :| x in a && Holds(x, t);
        assert x in a + b;
      }
      if t in Cover(b) {
        var x :| x in b && Holds(x, t);
        assert x in a + b;
      }
    }
  }

  lemma CoverOne(x: Interval)
    ensures Cover([x]) == Span(x)
  {
    assert [x][0] in [x];
  }

  lemma CoverSame(a: seq<Interval>, b: seq<Interval>)
    requires multiset(a) == multiset(b)
    ensures Cover(a) == Cover(b)
  {
    forall x ensures x in a <==> x in b {
      assert x in a <==> x in multiset(a);
      assert x in b <==> x in multiset(b);
    }
  }

  // ------------------------------------------------------------------------ sort

  predicate Before(a: Interval, b: Interval) { a.start < b.start || (a.start == b.start && a.end <= b.end) }

  predicate Sorted(xs: seq<Interval>) {
    forall i, j :: 0 <= i < j < |xs| ==> Before(xs[i], xs[j])
  }

  function Insert(x: Interval, xs: seq<Interval>): seq<Interval> {
    if xs == [] || Before(x, xs[0]) then [x] + xs else [xs[0]] + Insert(x, xs[1..])
  }

  /** `list.sort()` on pairs. */
  function Sort(xs: seq<Interval>): seq<Interval> {
    if xs == [] then [] else Insert(xs[0], Sort(xs[1..]))
  }

  lemma HeadLeads(x: Interval, xs: seq<Interval>, r: seq<Interval>)
    requires xs != [] && Sorted(xs) && !Before(x, xs[0]) && multiset(r) == multiset(xs[1..]) + multiset{x}
    ensures forall j | 0 <= j < |r| :: Before(xs[0], r[j])
  {
    forall j | 0 <= j < |r| ensures Before(xs[0], r[j]) {
      assert r[j] in multiset(r);
      if r[j] != x {
        var k :| 0 <= k < |xs[1..]| && xs[1..][k] == r[j];
      }
    }
  }

  lemma SortedCons(x: Interval, xs: seq<Interval>)
    requires Sorted(xs) && forall j | 0 <= j < |xs| :: Before(x, xs[j])
    ensures Sorted([x] + xs) && multiset([x] + xs) == multiset{x} + multiset(xs)
  {}

  lemma {:induction false} InsertKeeps(x: Interval, xs: seq<Interval>)
    requires Sorted(xs)
    ensures Sorted(Insert(x, xs)) && multiset(Insert(x, xs)) == multiset(xs) + multiset{x}
  {
    if xs != [] && !Before(x, xs[0]) {
      InsertKeeps(x, xs[1..]);
      assert xs == [xs[0]] + xs[1..];
      HeadLeads(x, xs, Insert(x, xs[1..]));
      SortedCons(xs[0], Insert(x, xs[1..]));
    } else {
      assert multiset([x] + xs) == multiset{x} + multiset(xs);
    }
  }

  lemma {:induction false} SortKeeps(xs: seq<Interval>)
    ensures Sorted(Sort(xs)) && multiset(Sort(xs)) == multiset(xs)
  {
    if xs != [] {
      SortKeeps(xs[1..]);
      InsertKeeps(xs[0], Sort(xs[1..]));
      assert xs == [xs[0]] + xs[1..];
    }
  }

  // ----------------------------------------------------------------------- merge

  /** Proper intervals in order, each ending no later than the next starts. */
  predicate Disjoint(m: seq<Interval>) {
    && (forall i :: 0 <= i < |m| ==> m[i].start <= m[i].end)
    && (forall i, j :: 0 <= i < j < |m| ==> m[i].end <= m[j].start)
  }

  function Total(m: seq<Interval>): int {
    if m == [] then 0 else Total(m[..|m| - 1]) + (m[|m| - 1].end - m[|m| - 1].start)
  }

  /** Disjoint intervals measure what they cover. */
  lemma {:induction false} DisjointMeasure(m: seq<Interval>)
    requires Disjoint(m)
    ensures |Cover(m)| == Total(m)
  {
    if m != [] {
      var front, last := m[..|m| - 1], m[|m| - 1];
      DisjointMeasure(front);
      SpanSize(last);
      LastApart(m);
    }
  }

  lemma LastApart(m: seq<Interval>)
    requires m != [] && Disjoint(m)
    ensures var front, last := m[..|m| - 1], m[|m| - 1];
      Cover(m) == Cover(front) + Span(last) && Cover(front) !! Span(last)
  {
    var front, last := m[..|m| - 1], m[|m| - 1];
    assert m == front + [last];
    CoverConcat(front, [last]);
    CoverOne(last);
    forall t | t in Cover(front) ensures t !in Span(last) {
      var x :| x in front && Holds(x, t);
    }
  }

  method Collect(blocks: seq<Block>, now: int) returns (intervals: seq<Interval>, elapsed: int, open: nat)
    ensures intervals == IntervalsOf(blocks)
    ensures elapsed == OpenElapsed(blocks, now) && open == OpenCount(blocks)
  {
    intervals, elapsed, open := [], 0, 0;
    var rest := blocks;
    while rest != []
      invariant intervals + IntervalsOf(rest) == IntervalsOf(blocks)
      invariant elapsed + OpenElapsed(rest, now) == OpenElapsed(blocks, now)
      invariant open + OpenCount(rest) == OpenCount(blocks)
      decreases |rest|
    {
      var b := rest[0];
      var own: seq<Interval> := [];
      if Counted(b) {
        if Duration(b).Some? {
          own := [Interval(b.start.epoch, b.end.epoch)];
        } else if b.end.Missing? {
          open := open + 1;
          if b.start.At? {
            elapsed := elapsed + (if b.start.epoch < now then now - b.start.epoch else 0);
          }
        }
      }
      ConcatAssoc(intervals, own, IntervalsOf(rest[1..]));
      intervals := intervals + own;
      rest := rest[1..];
    }
  }

  method Merge(intervals: seq<Interval>) returns (merged: seq<Interval>, overlaps: nat)
    requires Sorted(intervals) && forall x | x in intervals :: x.start <= x.end
    ensures Disjoint(merged) && Cover(merged) == Cover(intervals)
    ensures |merged| + overlaps == |intervals|
  {
    merged, overlaps := [], 0;
    var i := 0;
    while i < |intervals|
      invariant i <= |intervals|
      invariant Disjoint(merged) && |merged| + overlaps == i
      invariant Cover(merged) == Cover(intervals[..i])
      invariant i < |intervals| ==> StartsBy(merged, intervals[i])
    {
      var next := intervals[i];
      assert next in intervals;
      CoverSnoc(intervals, i);
      if merged != [] && next.start < merged[|merged| - 1].end {
        overlaps := overlaps + 1;
        WidenLast(merged, next);
        merged := Widened(merged, next);
      } else {
        AppendNext(merged, next);
        merged := merged + [next];
      }
      i := i + 1;
    }
    assert intervals[..i] == intervals;
  }

  /** The last merged interval starts no later than the next one. */
  predicate StartsBy(m: seq<Interval>, next: Interval) {
    m != [] ==> m[|m| - 1].start <= next.start
  }

  lemma CoverSnoc(xs: seq<Interval>, i: nat)
    requires i < |xs|
    ensures Cover(xs[..i + 1]) == Cover(xs[..i]) + Cover([xs[i]])
  {
    assert xs[..i + 1] == xs[..i] + [xs[i]];
    CoverConcat(xs[..i], [xs[i]]);
  }

  /** `merged[-1][1] = max(merged[-1][1], end)` */
  function Widened(m: seq<Interval>, next: Interval): seq<Interval>
    requires m != []
  {
    var last := m[|m| - 1];
    m[..|m| - 1] + [Interval(last.start, if last.end < next.end then next.end else last.end)]
  }

  lemma WidenDisjoint(m: seq<Interval>, next: Interval)
    requires m != [] && Disjoint(m) && next.start <= next.end
    requires m[|m| - 1].start <= next.start < m[|m| - 1].end
    ensures Disjoint(Widened(m, next))
  {}

  lemma WidenLast(m: seq<Interval>, next: Interval)
    requires m != [] && Disjoint(m) && next.start <= next.end
    requires m[|m| - 1].start <= next.start < m[|m| - 1].end
    ensures Disjoint(Widened(m, next)) && Cover(Widened(m, next)) == Cover(m) + Cover([next])
  {
    var front, last := m[..|m| - 1], m[|m| - 1];
    var wider := Interval(last.start, if last.end < next.end then next.end else last.end);
    assert m == front + [last];
    CoverConcat(front, [wider]);
    CoverConcat(front, [last]);
    CoverWider(last, next, wider);
    WidenDisjoint(m, next);
    assert Widened(m, next) == front + [wider];
  }

  lemma CoverWider(last: Interval, next: Interval, wider: Interval)
    requires last.start <= next.start < last.end && next.start <= next.end
    requires wider == Interval(last.start, if last.end < next.end then next.end else last.end)
    ensures Cover([wider]) == Cover([last]) + Cover([next])
  {
    CoverOne(wider);
    CoverOne(last);
    CoverOne(next);
    assert Span(wider) == Span(last) + Span(next);
  }

  lemma AppendNext(m: seq<Interval>, next: Interval)
    requires Disjoint(m) && next.start <= next.end
    requires m != [] ==> m[|m| - 1].end <= next.start
    ensures Disjoint(m + [next]) && Cover(m + [next]) == Cover(m) + Cover([next])
  {
    CoverConcat(m, [next]);
    forall i | 0 <= i < |m| ensures m[i].end <= next.start {
      if i < |m| - 1 {
        assert m[i].end <= m[|m| - 1].start <= m[|m| - 1].end;
      }
    }
  }

  method Sum(m: seq<Interval>) returns (total: int)
    ensures total == Total(m)
  {
    total := 0;
    for n := 0 to |m|
      invariant total == Total(m[..n])
    {
      assert m[..n + 1][..n] == m[..n];
      total := total + (m[n].end - m[n].start);
    }
    assert m[..|m|] == m;
  }

  /** What `union_seconds` promises of its report. */
  ghost predicate IsReport(r: Report, blocks: seq<Block>, now: int) {
    && r.closed == |Instants(blocks)|
    && r.total == (if exists b :: b in blocks && IsOpen(b) then None else Some(r.closed))
    && r.openCount == OpenCount(blocks) && r.openElapsed == OpenElapsed(blocks, now)
    && r.intervalCount == |IntervalsOf(blocks)|
    && Disjoint(r.merged) && Cover(r.merged) == Instants(blocks)
    && |r.merged| + r.overlaps == r.intervalCount
  }

  lemma {:induction false} OpenCountPositive(blocks: seq<Block>)
    ensures OpenCount(blocks) > 0 <==> exists b :: b in blocks && IsOpen(b)
  {
    if blocks != [] {
      OpenCountPositive(blocks[1..]);
      assert blocks[0] in blocks;
      assert forall b :: b in blocks <==> b == blocks[0] || b in blocks[1..];
    }
  }

  /** `union_seconds`: the total is the exact measure of the union. */
  method UnionSeconds(blocks: seq<Block>, now: int) returns (r: Report)
    ensures IsReport(r, blocks, now)
  {
    var intervals, elapsed, open := Collect(blocks, now);
    var sorted := Sort(intervals);
    SortKeeps(intervals);
    IntervalsCover(blocks);
    CoverSame(sorted, intervals);
    forall x | x in sorted ensures x.start <= x.end {
      assert x in multiset(sorted);
      assert x in multiset(intervals);
    }
    var merged, overlaps := Merge(sorted);
    assert |sorted| == |multiset(sorted)| == |intervals|;
    var total := Sum(merged);
    DisjointMeasure(merged);
    OpenCountPositive(blocks);
    r := Report(if open > 0 then None else Some(total), total, elapsed, open,
                |intervals|, overlaps, merged);
  }

  // ------------------------------------------------------- laws of the closed total

  /** The total depends on which blocks there are, not on their order. */
  lemma ClosedOrderFree(a: seq<Block>, b: seq<Block>)
    requires multiset(a) == multiset(b)
    ensures Instants(a) == Instants(b)
  {
    forall x ensures x in a <==> x in b {
      assert x in a <==> x in multiset(a);
      assert x in b <==> x in multiset(b);
    }
  }

  lemma SubsetSize(a: set<int>, b: set<int>)
    requires a <= b
    ensures |a| <= |b|
  {
    assert b == a + (b - a);
  }

  /** More blocks never lower the total. */
  lemma ClosedMonotone(a: seq<Block>, b: seq<Block>)
    requires forall x | x in a :: x in b
    ensures |Instants(a)| <= |Instants(b)|
  {
    SubsetSize(Instants(a), Instants(b));
  }

  lemma InstantsConcat(a: seq<Block>, b: seq<Block>)
    ensures Instants(a + b) == Instants(a) + Instants(b)
  {
    forall x ensures x in a + b <==> x in a || x in b {}
  }

  /** Counting two collections together never exceeds counting them apart. */
  lemma ClosedSubadditive(a: seq<Block>, b: seq<Block>)
    ensures |Instants(a + b)| <= |Instants(a)| + |Instants(b)|
    ensures |Instants(a + b)| == |Instants(a)| + |Instants(b)| <==> Instants(a) !! Instants(b)
  {
    InstantsConcat(a, b);
    var x, y := Instants(a), Instants(b);
    assert |x + y| == |x| + |y| - |x * y|;
    if x * y == {} {
      forall t | t in x ensures t !in y { assert t in y ==> t in x * y; }
    }
  }

  // --------------------------------------------------------------------- summary

  datatype Period = Day(today: string) | Session(id: string) | Project

  datatype Timelog = Timelog(session: string, blocks: seq<Block>)

  datatype SessionTotal = SessionTotal(session: string, blocks: seq<Block>, total: Report)

  function Selected(log: Timelog, period: Period): seq<Block> {
    match period
    case Day(today) => OnDay(log.blocks, today)
    case Session(id) => if log.session == id then log.blocks else []
    case Project => log.blocks
  }

  function OnDay(blocks: seq<Block>, today: string): seq<Block> {
    if blocks == [] then []
    else (if blocks[0].day == today then [blocks[0]] else []) + OnDay(blocks[1..], today)
  }

  function AllSelected(logs: seq<Timelog>, period: Period): seq<Block> {
    if logs == [] then [] else Selected(logs[0], period) + AllSelected(logs[1..], period)
  }

  /** The logs with a selected block, in their order: the ones that the summary lists. */
  function Listed(logs: seq<Timelog>, period: Period): seq<Timelog> {
    if logs == [] then [] else (if Selected(logs[0], period) == [] then [] else [logs[0]]) + Listed(logs[1..], period)
  }

  lemma {:induction false} OnDayTakes(blocks: seq<Block>, today: string, b: Block)
    ensures multiset(OnDay(blocks, today))[b] == if b.day == today then multiset(blocks)[b] else 0
  {
    if blocks != [] {
      OnDayTakes(blocks[1..], today, b);
      assert blocks == [blocks[0]] + blocks[1..];
    }
  }

  /** A log is listed exactly when some block of it is of the period, and all of those blocks are counted. */
  lemma {:induction false} ListedExactly(logs: seq<Timelog>, period: Period, log: Timelog)
    ensures log in Listed(logs, period) <==> log in logs && exists b :: b in log.blocks && InPeriod(log, b, period)
    ensures forall b :: b in Selected(log, period) <==> b in log.blocks && InPeriod(log, b, period)
  {
    forall b ensures b in Selected(log, period) <==> b in log.blocks && InPeriod(log, b, period) {
      if period.Day? {
        OnDayTakes(log.blocks, period.today, b);
        assert b in OnDay(log.blocks, period.today) <==> b in multiset(OnDay(log.blocks, period.today));
        assert b in log.blocks <==> b in multiset(log.blocks);
      }
    }
    NotEmpty(Selected(log, period));
    if logs != [] {
      ListedExactly(logs[1..], period, log);
      assert log in logs <==> log == logs[0] || log in logs[1..];
    }
  }

  /** The blocks of a day, and the logs that are listed, are those that qualify, in order. */
  lemma {:induction false} OnDayFilters(blocks: seq<Block>, today: string)
    ensures OnDay(blocks, today) == Filtered(blocks, (b: Block) => b.day == today)
  {
    if blocks != [] {
      OnDayFilters(blocks[1..], today);
      FilteredCons(blocks[0], blocks[1..], (b: Block) => b.day == today);
      assert [blocks[0]] + blocks[1..] == blocks;
    }
  }

  lemma {:induction false} ListedFilters(logs: seq<Timelog>, period: Period)
    ensures Listed(logs, period) == Filtered(logs, (log: Timelog) => Selected(log, period) != [])
  {
    if logs != [] {
      ListedFilters(logs[1..], period);
      FilteredCons(logs[0], logs[1..], (log: Timelog) => Selected(log, period) != []);
      assert [logs[0]] + logs[1..] == logs;
    }
  }

  /** What is collected from several logs is what is selected from each, in order, and what is open adds up. */
  lemma {:induction false} SelectedConcat(a: seq<Timelog>, b: seq<Timelog>, period: Period)
    ensures AllSelected(a + b, period) == AllSelected(a, period) + AllSelected(b, period)
    ensures forall log :: AllSelected([log], period) == Selected(log, period)
  {
    if a == [] {
      assert a + b == b;
    } else {
      assert (a + b)[1..] == a[1..] + b;
      SelectedConcat(a[1..], b, period);
      ConcatAssoc(Selected(a[0], period), AllSelected(a[1..], period), AllSelected(b, period));
    }
  }

  lemma {:induction false} OpenAddsUp(a: seq<Block>, b: seq<Block>, now: int)
    ensures OpenCount(a + b) == OpenCount(a) + OpenCount(b)
    ensures OpenElapsed(a + b, now) == OpenElapsed(a, now) + OpenElapsed(b, now)
    ensures forall x :: OpenCount([x]) == (if IsOpen(x) then 1 else 0) && OpenElapsed([x], now) == Elapsed(x, now)
  {
    if a == [] {
      assert a + b == b;
    } else {
      assert (a + b)[1..] == a[1..] + b;
      OpenAddsUp(a[1..], b, now);
    }
  }

  lemma NotEmpty(blocks: seq<Block>)
    ensures blocks != [] <==> exists b :: b in blocks
  {
    if blocks != [] { assert blocks[0] in blocks; }
  }

  /** The block counts for the period. */
  predicate InPeriod(log: Timelog, b: Block, period: Period) {
    match period case Day(today) => b.day == today case Session(id) => log.session == id case Project => true
  }

  /** One total for each listed log, of the blocks that are selected from it. */
  predicate TotalsOf(sessions: seq<SessionTotal>, listed: seq<Timelog>, period: Period) {
    && |sessions| == |listed|
    && forall i | 0 <= i < |listed| ::
         sessions[i].session == listed[i].session && sessions[i].blocks == Selected(listed[i], period)
  }

  function SumClosed(sessions: seq<SessionTotal>): int {
    if sessions == [] then 0 else SumClosed(sessions[..|sessions| - 1]) + sessions[|sessions| - 1].total.closed
  }

  /**
   * `summary`: one total for each session with a selected block, in order. A session's total is the
   * union over the blocks selected from its own log, and the overall total is the union across
   * sessions, never more than the sum of the session totals.
   */
  method Summary(logs: seq<Timelog>, period: Period, now: int)
    returns (sessions: seq<SessionTotal>, total: Report)
    ensures TotalsOf(sessions, Listed(logs, period), period)
    ensures IsReport(total, AllSelected(logs, period), now)
    ensures forall s | s in sessions :: s.blocks != [] && IsReport(s.total, s.blocks, now)
    ensures total.closed <= SumClosed(sessions)
    ensures forall s | s in sessions :: s.total.closed <= total.closed
  {
    var collected;
    sessions, collected := PerSession(logs, period, now);
    total := UnionSeconds(collected, now);
    forall s | s in sessions ensures s.total.closed <= total.closed {
      ClosedMonotone(s.blocks, collected);
    }
  }

  /** The reports of some sessions, all of whose blocks are among the collected ones. */
  ghost predicate Reported(sessions: seq<SessionTotal>, collected: seq<Block>, now: int) {
    && (forall s | s in sessions ::
          s.blocks != [] && IsReport(s.total, s.blocks, now) && forall b | b in s.blocks :: b in collected)
    && |Instants(collected)| <= SumClosed(sessions)
  }

  lemma ReportedSnoc(sessions: seq<SessionTotal>, collected: seq<Block>, s: SessionTotal, now: int)
    requires Reported(sessions, collected, now) && s.blocks != [] && IsReport(s.total, s.blocks, now)
    ensures Reported(sessions + [s], collected + s.blocks, now)
  {
    ClosedSubadditive(collected, s.blocks);
    SumClosedSnoc(sessions, s);
  }

  lemma TotalsSnoc(sessions: seq<SessionTotal>, listed: seq<Timelog>, period: Period, s: SessionTotal, log: Timelog)
    requires TotalsOf(sessions, listed, period) && s.session == log.session && s.blocks == Selected(log, period)
    ensures TotalsOf(sessions + [s], listed + [log], period)
  {}

  /** The loop over the logs. */
  method PerSession(logs: seq<Timelog>, period: Period, now: int)
    returns (sessions: seq<SessionTotal>, collected: seq<Block>)
    ensures TotalsOf(sessions, Listed(logs, period), period)
    ensures collected == AllSelected(logs, period) && Reported(sessions, collected, now)
  {
    sessions, collected := [], [];
    var rest := logs;
    ghost var listed: seq<Timelog> := [];
    while rest != []
      invariant listed + Listed(rest, period) == Listed(logs, period) && TotalsOf(sessions, listed, period)
      invariant collected + AllSelected(rest, period) == AllSelected(logs, period)
      invariant Reported(sessions, collected, now)
      decreases |rest|
    {
      var blocks := Selected(rest[0], period);
      ConcatAssoc(collected, blocks, AllSelected(rest[1..], period));
      if blocks != [] {
        var r := UnionSeconds(blocks, now);
        var s := SessionTotal(rest[0].session, blocks, r);
        ReportedSnoc(sessions, collected, s, now);
        TotalsSnoc(sessions, listed, period, s, rest[0]);
        ConcatAssoc(listed, [rest[0]], Listed(rest[1..], period));
        sessions, collected, listed := sessions + [s], collected + blocks, listed + [rest[0]];
      } else {
        assert collected + blocks == collected && [] + Listed(rest[1..], period) == Listed(rest[1..], period);
      }
      rest := rest[1..];
    }
    assert collected + [] == collected && listed + [] == listed;
  }

  lemma SumClosedSnoc(sessions: seq<SessionTotal>, s: SessionTotal)
    ensures SumClosed(sessions + [s]) == SumClosed(sessions) + s.total.closed
  {
    assert (sessions + [s])[..|sessions|] == sessions;
  }
}
