/**
 Names of a writer's log and metric objects (`logfiles`, `metric_files`), and which of
 them a listing shows.

 A name says which segments of the writer's stream its object holds; a name written is
 read back as the same span (`NameReadBack`). Segments are appended, merged into wider
 objects, and what a merged object covers is deleted some time later or left behind. In
 every such run the names shown hold each segment exactly once and in order
 (`ShownHoldsAll` over `RunKeeps`), and `superseded` names exactly the objects the widest
 one hides (`SupersededIsHidden`).
 */
module StreamNames {
  import opened RecordMetrics

  datatype Option<+T> = None | Some(value: T)

  // ------------------------------------------------------------ names as text

  const PREFIX := "log/"
  const SUFFIX := ".jsonl"

  predicate IsDigit(c: char) { '0' <= c <= '9' }

  predicate IsNumber(s: string) { s != "" && forall i :: 0 <= i < |s| ==> IsDigit(s[i]) }

  function Digit(n: nat): char
    requires n < 10
  {
    ['0', '1', '2', '3', '4', '5', '6', '7', '8', '9'][n]
  }

  function DigitValue(c: char): nat
    requires IsDigit(c)
  {
    c as int - '0' as int
  }

  function Digits(n: nat): string {
    if n < 10 then [Digit(n)] else Digits(n / 10) + [Digit(n % 10)]
  }

  function Zeros(n: nat): string { if n == 0 then "" else Zeros(n - 1) + "0" }

  /** `n` with zeros before it, at least six digits. */
  function Padded(n: nat): string {
    var s := Digits(n);
    if |s| < 6 then Zeros(6 - |s|) + s else s
  }

  lemma {:induction false} ZerosAre(n: nat)
    ensures |Zeros(n)| == n && forall i :: 0 <= i < n ==> Zeros(n)[i] == '0'
  {
    if n > 0 { ZerosAre(n - 1); }
  }

  /** Six characters at least, zeros before the digits. */
  lemma PaddedWidth(n: nat)
    ensures var s, d := Padded(n), Digits(n);
            && |s| == (if |d| < 6 then 6 else |d|) && s[|s| - |d|..] == d
            && forall i :: 0 <= i < |s| - |d| ==> s[i] == '0'
  {
    ZerosAre(if |Digits(n)| < 6 then 6 - |Digits(n)| else 0);
  }

  function Value(s: string): nat
    requires forall i :: 0 <= i < |s| ==> IsDigit(s[i])
  {
    if s == "" then 0 else 10 * Value(s[..|s| - 1]) + DigitValue(s[|s| - 1])
  }

  lemma DigitIs(n: nat)
    requires n < 10
    ensures IsDigit(Digit(n)) && DigitValue(Digit(n)) == n
  {
  }

  lemma OneDigitMore(s: string, c: char)
    requires (s == "" || IsNumber(s)) && IsDigit(c)
    ensures IsNumber(s + [c]) && Value(s + [c]) == 10 * Value(s) + DigitValue(c)
  {
    assert (s + [c])[..|s|] == s;
  }

  lemma {:induction false} DigitsValue(n: nat)
    ensures IsNumber(Digits(n)) && Value(Digits(n)) == n
  {
    DigitIs(n % 10);
    if n < 10 {
      OneDigitMore("", Digit(n));
      assert Digits(n) == "" + [Digit(n)];
    } else {
      DigitsValue(n / 10);
      OneDigitMore(Digits(n / 10), Digit(n % 10));
    }
  }

  lemma {:induction false} ZerosBefore(n: nat, s: string)
    requires IsNumber(s)
    ensures IsNumber(Zeros(n) + s) && Value(Zeros(n) + s) == Value(s)
    decreases n, |s|
  {
    if |s| == 1 {
      ZerosAreZero(n);
      assert (Zeros(n) + s)[..n] == Zeros(n) && s[..0] == "";
    } else {
      var init := s[..|s| - 1];
      ZerosBefore(n, init);
      assert (Zeros(n) + s)[..|Zeros(n) + s| - 1] == Zeros(n) + init;
    }
  }

  lemma {:induction false} ZerosAreZero(n: nat)
    ensures |Zeros(n)| == n && (forall i :: 0 <= i < n ==> Zeros(n)[i] == '0')
    ensures Value(Zeros(n)) == 0
  {
    if n > 0 {
      ZerosAreZero(n - 1);
      assert Zeros(n)[..n - 1] == Zeros(n - 1);
    }
  }

  lemma PaddedValue(n: nat)
    ensures IsNumber(Padded(n)) && Value(Padded(n)) == n
  {
    DigitsValue(n);
    if |Digits(n)| < 6 {
      ZerosBefore(6 - |Digits(n)|, Digits(n));
    }
  }

  /** Before and after the first `c`; all of it and nothing when there is none. */
  function Partition(s: string, c: char): (string, string) {
    if s == "" then ("", "")
    else if s[0] == c then ("", s[1..])
    else
      var (a, b) := Partition(s[1..], c);
      ([s[0]] + a, b)
  }

  lemma {:induction false} PartitionAt(a: string, c: char, b: string)
    requires c !in a
    ensures Partition(a + [c] + b, c) == (a, b)
  {
    if a == "" {
      assert a + [c] + b == [c] + b && ([c] + b)[1..] == b;
    } else {
      assert (a + [c] + b)[1..] == a[1..] + [c] + b;
      PartitionAt(a[1..], c, b);
      assert [a[0]] + a[1..] == a;
    }
  }

  lemma {:induction false} NothingToPart(a: string, c: char)
    requires c !in a
    ensures Partition(a, c) == (a, "")
  {
    if a != "" {
      NothingToPart(a[1..], c);
      assert [a[0]] + a[1..] == a;
    }
  }

  /** The segments a writer's object holds. */
  datatype Span = Span(first: nat, last: nat) {
    predicate Holds(i: nat) { first <= i <= last }

    /** More than one segment merged. */
    predicate Merged() { first < last }
  }

  /** Writer and span of a name's stem. */
  function WriterAndSpan(stem: string): (string, Span) {
    var (writer, seq_) := Partition(stem, '@');
    var (first, last) := Partition(seq_, '-');
    if IsNumber(first) && IsNumber(last) then (writer, Span(Value(first), Value(last)))
    else
      var n := if IsNumber(seq_) then Value(seq_) else 0;
      (writer, Span(n, n))
  }

  function SegmentStem(writer: string, n: nat): string {
    if n == 0 then writer else writer + "@" + Padded(n)
  }

  function MergedStem(writer: string, last: nat): string {
    writer + "@" + Padded(0) + "-" + Padded(last)
  }

  function Stem(name: string): string
    requires |name| >= |PREFIX| + |SUFFIX|
  {
    name[|PREFIX|..|name| - |SUFFIX|]
  }

  /** A name reads back as the writer and span it was made of. */
  lemma NameReadBack(writer: string, n: nat)
    requires '@' !in writer
    ensures WriterAndSpan(Stem(PREFIX + SegmentStem(writer, n) + SUFFIX)) == (writer, Span(n, n))
    ensures WriterAndSpan(Stem(PREFIX + MergedStem(writer, n) + SUFFIX)) == (writer, Span(0, n))
  {
    SegmentReadBack(writer, n);
    MergedReadBack(writer, n);
    assert Stem(PREFIX + SegmentStem(writer, n) + SUFFIX) == SegmentStem(writer, n);
    assert Stem(PREFIX + MergedStem(writer, n) + SUFFIX) == MergedStem(writer, n);
  }

  lemma SegmentReadBack(writer: string, n: nat)
    requires '@' !in writer
    ensures WriterAndSpan(SegmentStem(writer, n)) == (writer, Span(n, n))
  {
    if n == 0 {
      NothingToPart(writer, '@');
    } else {
      PaddedValue(n);
      assert SegmentStem(writer, n) == writer + ['@'] + Padded(n);
      PartitionAt(writer, '@', Padded(n));
      assert forall i :: 0 <= i < |Padded(n)| ==> IsDigit(Padded(n)[i]);
      NothingToPart(Padded(n), '-');
    }
  }

  lemma MergedReadBack(writer: string, last: nat)
    requires '@' !in writer
    ensures WriterAndSpan(MergedStem(writer, last)) == (writer, Span(0, last))
  {
    PaddedValue(0);
    PaddedValue(last);
    var seq_ := Padded(0) + ['-'] + Padded(last);
    assert MergedStem(writer, last) == writer + ['@'] + seq_;
    PartitionAt(writer, '@', seq_);
    assert forall i :: 0 <= i < |Padded(0)| ==> IsDigit(Padded(0)[i]);
    PartitionAt(Padded(0), '-', Padded(last));
  }

  // -------------------------------------------------------- a stream's objects

  function SpanOf(o: Object): Span { Span(if o.Segment? then o.seq_ else 0, o.Last()) }

  /** A writer's objects: segments so far, and what was merged of them. */
  datatype Stream = Stream(objects: set<Object>, next: nat)

  /** A segment appended, the segments up to one merged, or an object deleted that a merged
      one covers. */
  datatype Step = Append | Merge(last: nat) | Delete(o: Object)

  predicate CoveredBy(objects: set<Object>, o: Object) {
    exists m :: m in objects && m.Indexed? && m != o && o.Last() <= m.last
  }

  function Do(s: Stream, step: Step): Stream {
    match step
    case Append => Stream(s.objects + {Segment(s.next)}, s.next + 1)
    case Merge(last) => if last < s.next then s.(objects := s.objects + {Indexed(last)}) else s
    case Delete(o) => if CoveredBy(s.objects, o) then s.(objects := s.objects - {o}) else s
  }

  function Run(steps: seq<Step>): Stream {
    if steps == [] then Stream({}, 0) else Do(Run(steps[..|steps| - 1]), steps[|steps| - 1])
  }

  function Appends(steps: seq<Step>): nat {
    if steps == [] then 0 else Appends(steps[..|steps| - 1]) + if steps[|steps| - 1].Append? then 1 else 0
  }

  /** A run has as many segments as were appended to it. */
  lemma {:induction false} AppendsCounted(steps: seq<Step>)
    ensures Run(steps).next == Appends(steps)
  {
    if steps != [] { AppendsCounted(steps[..|steps| - 1]); }
  }

  ghost predicate Holding(objects: set<Object>, i: nat) {
    exists o :: o in objects && o.Holds(i)
  }

  /** Every segment so far is in some object, and no other one. */
  ghost predicate Sound(s: Stream) {
    && (forall o :: o in s.objects ==> o.Last() < s.next)
    && (forall i: nat :: i < s.next ==> Holding(s.objects, i))
  }

  lemma StepKeeps(s: Stream, step: Step)
    requires Sound(s)
    ensures Sound(Do(s, step))
  {
    var after := Do(s, step);
    forall i: nat | i < after.next ensures Holding(after.objects, i) {
      if i == s.next {
        assert Segment(i) in after.objects && Segment(i).Holds(i);
      } else {
        assert Holding(s.objects, i);
        var o :| o in s.objects && o.Holds(i);
        if o !in after.objects {
          var m :| m in s.objects && m.Indexed? && m != o && o.Last() <= m.last;
          assert m in after.objects && m.Holds(i);
        } else {
          assert o in after.objects;
        }
      }
    }
  }

  lemma {:induction false} RunKeeps(steps: seq<Step>)
    ensures Sound(Run(steps))
  {
    if steps != [] {
      RunKeeps(steps[..|steps| - 1]);
      StepKeeps(Run(steps[..|steps| - 1]), steps[|steps| - 1]);
    }
  }

  /** Spans one after the other, from 0 up to `n`. */
  ghost predicate Tiles(shown: seq<Span>, n: nat) {
    if n == 0 then shown == []
    else shown != [] && var s := shown[|shown| - 1]; s.first <= s.last == n - 1 && Tiles(shown[..|shown| - 1], s.first)
  }

  /** Each segment is held by exactly one of the spans, a later one by a later. */
  lemma {:induction false} TilesHoldOnce(shown: seq<Span>, n: nat, i: nat) returns (j: nat)
    requires Tiles(shown, n) && i < n
    ensures j < |shown| && forall k :: 0 <= k < |shown| ==> (shown[k].Holds(i) <==> k == j)
    ensures forall k, h: nat :: 0 <= k < j && shown[k].Holds(h) ==> h < i
  {
    var init, s := shown[..|shown| - 1], shown[|shown| - 1];
    TilesEndBelow(init, s.first);
    if s.first <= i {
      j := |init|;
    } else {
      j := TilesHoldOnce(init, s.first, i);
    }
  }

  lemma {:induction false} TilesEndBelow(shown: seq<Span>, n: nat)
    requires Tiles(shown, n)
    ensures forall k :: 0 <= k < |shown| ==> shown[k].first <= shown[k].last < n
  {
    if n > 0 {
      TilesEndBelow(shown[..|shown| - 1], shown[|shown| - 1].first);
    }
  }

  ghost predicate Rising(spans: seq<Span>) {
    forall i, j :: 0 <= i < j < |spans| ==> spans[i].last < spans[j].last
  }

  /** The span of the widest merged object, if any, and every segment after it. */
  predicate Due(widest: Option<Span>, n: nat, s: Span) {
    widest == Some(s) || (s.first == s.last && After(widest) <= s.first < n)
  }

  function After(widest: Option<Span>): nat { if widest.Some? then widest.value.last + 1 else 0 }

  lemma {:induction false} DueTiles(shown: seq<Span>, widest: Option<Span>, n: nat)
    requires Rising(shown) && After(widest) <= n && forall s :: s in shown <==> Due(widest, n, s)
    requires widest.Some? ==> widest.value.first == 0
    ensures Tiles(shown, n)
    decreases n
  {
    forall i | 0 <= i < |shown| ensures Due(widest, n, shown[i]) {
      assert shown[i] in shown;
    }
    if n == After(widest) {
      if widest.Some? {
        assert widest.value in shown && Tiles([], 0);
        var last := |shown| - 1;
        assert shown[0] == widest.value && shown[last] == widest.value;
        assert last == 0 && shown[..0] == [];
      }
    } else {
      var top := Span(n - 1, n - 1);
      assert Due(widest, n, top);
      var k :| 0 <= k < |shown| && shown[k] == top;
      assert k == |shown| - 1;
      var init := shown[..|shown| - 1];
      forall s ensures s in init <==> Due(widest, n - 1, s) {
        if s in init {
          assert s in shown;
        }
        if Due(widest, n - 1, s) {
          assert s in shown;
          var h :| 0 <= h < |shown| && shown[h] == s;
        }
      }
      DueTiles(init, widest, n - 1);
    }
  }

  // ------------------------------------------------------------ what logs show

  /** The merged span compared highest, by first and then last segment. */
  function Widest(spans: seq<Span>): Option<Span> {
    if spans == [] then None
    else
      var w, s := Widest(spans[..|spans| - 1]), spans[|spans| - 1];
      if s.Merged() && (w.None? || w.value.first < s.first || (w.value.first == s.first && w.value.last < s.last))
      then Some(s) else w
  }

  function InsertByLast(spans: seq<Span>, s: Span): seq<Span> {
    if spans == [] || spans[|spans| - 1].last <= s.last then spans + [s]
    else InsertByLast(spans[..|spans| - 1], s) + [spans[|spans| - 1]]
  }

  /** The spans kept, by their last segment. */
  function Kept(spans: seq<Span>, widest: Option<Span>): seq<Span> {
    if spans == [] then []
    else
      var rest, s := Kept(spans[..|spans| - 1], widest), spans[|spans| - 1];
      if Shows(widest, s) then InsertByLast(rest, s) else rest
  }

  predicate Shows(widest: Option<Span>, s: Span) {
    widest.None? || s == widest.value || !widest.value.Holds(s.first)
  }

  /** A writer's spans less those a merged one covers, in order. */
  function VisibleSpans(spans: seq<Span>): seq<Span> { Kept(spans, Widest(spans)) }

  lemma {:induction false} InsertHolds(spans: seq<Span>, s: Span, x: Span)
    ensures x in InsertByLast(spans, s) <==> x in spans || x == s
  {
    if spans != [] && spans[|spans| - 1].last > s.last {
      InsertHolds(spans[..|spans| - 1], s, x);
      assert x in spans <==> x in spans[..|spans| - 1] || x == spans[|spans| - 1];
    }
  }

  ghost predicate AllBelow(spans: seq<Span>, last: nat) {
    forall i :: 0 <= i < |spans| ==> spans[i].last < last
  }

  lemma {:induction false} InsertBelow(spans: seq<Span>, s: Span, last: nat)
    requires AllBelow(spans, last) && s.last < last
    ensures AllBelow(InsertByLast(spans, s), last)
  {
    if spans != [] && spans[|spans| - 1].last > s.last {
      InsertBelow(spans[..|spans| - 1], s, last);
    }
  }

  lemma {:induction false} InsertRises(spans: seq<Span>, s: Span)
    requires Rising(spans) && forall i :: 0 <= i < |spans| ==> spans[i].last != s.last
    ensures Rising(InsertByLast(spans, s))
  {
    if spans != [] && spans[|spans| - 1].last > s.last {
      InsertRises(spans[..|spans| - 1], s);
      InsertBelow(spans[..|spans| - 1], s, spans[|spans| - 1].last);
    }
  }

  lemma {:induction false} KeptHolds(spans: seq<Span>, widest: Option<Span>, x: Span)
    ensures x in Kept(spans, widest) <==> x in spans && Shows(widest, x)
  {
    if spans != [] {
      KeptHolds(spans[..|spans| - 1], widest, x);
      InsertHolds(Kept(spans[..|spans| - 1], widest), spans[|spans| - 1], x);
      assert x in spans <==> x in spans[..|spans| - 1] || x == spans[|spans| - 1];
    }
  }

  /** No two spans shown end in the same segment. */
  ghost predicate EndsDiffer(spans: seq<Span>, widest: Option<Span>) {
    forall i, j :: 0 <= i < j < |spans| && Shows(widest, spans[i]) && Shows(widest, spans[j]) ==>
      spans[i].last != spans[j].last
  }

  lemma {:induction false} KeptRises(spans: seq<Span>, widest: Option<Span>)
    requires EndsDiffer(spans, widest)
    ensures Rising(Kept(spans, widest))
  {
    if spans != [] {
      var init, s := spans[..|spans| - 1], spans[|spans| - 1];
      KeptRises(init, widest);
      if Shows(widest, s) {
        forall i | 0 <= i < |Kept(init, widest)| ensures Kept(init, widest)[i].last != s.last {
          KeptHolds(init, widest, Kept(init, widest)[i]);
          var h :| 0 <= h < |init| && init[h] == Kept(init, widest)[i];
          assert spans[h] == init[h];
        }
        InsertRises(Kept(init, widest), s);
      }
    }
  }

  /** The listing is of the stream's objects, each once. */
  ghost predicate ListsLogs(spans: seq<Span>, s: Stream) {
    && (forall i, j :: 0 <= i < j < |spans| ==> spans[i] != spans[j])
    && (forall x :: x in spans <==> exists o :: o in s.objects && SpanOf(o) == x)
    && (forall o :: o in s.objects && o.Indexed? ==> o.last > 0)
  }

  lemma {:induction false} WidestIsWidest(spans: seq<Span>)
    requires forall x :: x in spans && x.Merged() ==> x.first == 0
    ensures Widest(spans).Some? ==> Widest(spans).value in spans && Widest(spans).value.Merged()
    ensures forall x :: x in spans && x.Merged() ==> Widest(spans).Some? && x.last <= Widest(spans).value.last
  {
    if spans != [] {
      WidestIsWidest(spans[..|spans| - 1]);
      assert forall x :: x in spans <==> x in spans[..|spans| - 1] || x == spans[|spans| - 1];
    }
  }

  /** What is shown is what is due: the widest merged log and the segments after it. */
  lemma ShownIsDue(spans: seq<Span>, s: Stream, x: Span)
    requires Sound(s) && ListsLogs(spans, s)
    ensures x in VisibleSpans(spans) <==> Due(Widest(spans), s.next, x)
    ensures Widest(spans).Some? ==> Widest(spans).value.first == 0 && Widest(spans).value.last < s.next
  {
    var w := Widest(spans);
    WidestIsWidest(spans);
    KeptHolds(spans, w, x);
    if x in spans {
      var o :| o in s.objects && SpanOf(o) == x;
    }
    if w.Some? {
      var o :| o in s.objects && SpanOf(o) == w.value;
    }
    if x.first == x.last && After(w) <= x.first < s.next {
      assert Holding(s.objects, x.first);
      var o :| o in s.objects && o.Holds(x.first);
      assert SpanOf(o) in spans;
      assert o.Indexed? ==> SpanOf(o).Merged();
    }
  }

  /** The logs shown hold each segment exactly once, in order. */
  lemma ShownHoldsAll(spans: seq<Span>, s: Stream)
    requires Sound(s) && ListsLogs(spans, s)
    ensures Tiles(VisibleSpans(spans), s.next)
  {
    var w := Widest(spans);
    forall x ensures x in VisibleSpans(spans) <==> Due(w, s.next, x) {
      ShownIsDue(spans, s, x);
    }
    ShownIsDue(spans, s, Span(0, 0));
    forall i, j | 0 <= i < j < |spans| && Shows(w, spans[i]) && Shows(w, spans[j])
      ensures spans[i].last != spans[j].last
    {
      KeptHolds(spans, w, spans[i]);
      KeptHolds(spans, w, spans[j]);
      assert Due(w, s.next, spans[i]) && Due(w, s.next, spans[j]);
    }
    KeptRises(spans, w);
    DueTiles(VisibleSpans(spans), w, s.next);
  }

  /** Whatever a writer's logs went through, those shown hold each segment once, in order. */
  lemma RunShowsAll(steps: seq<Step>, spans: seq<Span>)
    requires ListsLogs(spans, Run(steps))
    ensures Tiles(VisibleSpans(spans), Run(steps).next)
  {
    RunKeeps(steps);
    ShownHoldsAll(spans, Run(steps));
  }

  /** A log file as listed, its name read. */
  datatype LogName = LogName(writer: string, span: Span)

  function SpansOf(names: seq<LogName>, writer: string): seq<Span> {
    if names == [] then []
    else
      var rest, n := SpansOf(names[..|names| - 1], writer), names[|names| - 1];
      if n.writer == writer then rest + [n.span] else rest
  }

  /** They are the spans of that writer's names and no other's, each as often. */
  lemma {:induction false} SpansOfHolds(names: seq<LogName>, writer: string, span: Span)
    ensures multiset(SpansOf(names, writer))[span] == multiset(names)[LogName(writer, span)]
  {
    if names != [] {
      SpansOfHolds(names[..|names| - 1], writer, span);
      assert names == names[..|names| - 1] + [names[|names| - 1]];
    }
  }

  /** A writer's spans among the first `n` names, no group where there is none. */
  ghost predicate LogsAt(names: seq<LogName>, n: nat, groups: map<string, seq<Span>>, w: string) {
    && n <= |names|
    && (w in groups ==> groups[w] != [])
    && SpansOf(names[..n], w) == if w in groups then groups[w] else []
  }

  /** A writer with logs is shown what is visible of them, and no other one. */
  ghost predicate LogsShown(shown: map<string, seq<Span>>, names: seq<LogName>, w: string) {
    && (w in shown <==> SpansOf(names, w) != [])
    && (w in shown ==> shown[w] == VisibleSpans(SpansOf(names, w)))
  }

  method GroupLogNames(names: seq<LogName>) returns (shown: map<string, seq<Span>>)
    ensures forall w :: LogsShown(shown, names, w)
  {
    var groups: map<string, seq<Span>> := map[];
    for i := 0 to |names|
      invariant forall w :: LogsAt(names, i, groups, w)
    {
      var n := names[i];
      ghost var was, next: nat := groups, i + 1;
      groups := groups[n.writer := (if n.writer in groups then groups[n.writer] else []) + [n.span]];
      forall w ensures LogsAt(names, next, groups, w) {
        assert LogsAt(names, i, was, w);
        assert names[..next][..i] == names[..i];
      }
    }
    assert names[..|names|] == names;
    shown := map w | w in groups :: VisibleSpans(groups[w]);
    forall w ensures LogsShown(shown, names, w) {
      assert LogsAt(names, |names|, groups, w);
    }
  }

  // --------------------------------------------------------- what metrics show

  /** The `.vmx` covering most, a later one of two alike. */
  function WidestIndexed(objects: seq<Object>): Option<nat> {
    if objects == [] then None
    else
      var w, o := WidestIndexed(objects[..|objects| - 1]), objects[|objects| - 1];
      if o.Indexed? && (w.None? || o.last >= w.value) then Some(o.last) else w
  }

  /** The segments from `from` on, in order. */
  function SegmentsFrom(objects: seq<Object>, from: nat): seq<Span> {
    if objects == [] then []
    else
      var rest, o := SegmentsFrom(objects[..|objects| - 1], from), objects[|objects| - 1];
      if o.Segment? && o.seq_ >= from then InsertByLast(rest, SpanOf(o)) else rest
  }

  function Covering(w: Option<nat>): Option<Span> { if w.Some? then Some(Span(0, w.value)) else None }

  /** A stream's objects as shown: the widest `.vmx`, then the segments past it. */
  function ShownMetrics(objects: seq<Object>): seq<Object> {
    var w := WidestIndexed(objects);
    var segments := SegmentsFrom(objects, After(Covering(w)));
    (if w.Some? then [Indexed(w.value)] else [])
    + seq(|segments|, i requires 0 <= i < |segments| => Segment(segments[i].first))
  }

  function Spans(objects: seq<Object>): seq<Span> {
    seq(|objects|, i requires 0 <= i < |objects| => SpanOf(objects[i]))
  }

  /** As spans: the widest `.vmx`'s and those of the segments past it. */
  lemma ShownSpans(objects: seq<Object>)
    ensures var w := Covering(WidestIndexed(objects));
            Spans(ShownMetrics(objects)) == (if w.Some? then [w.value] else []) + SegmentsFrom(objects, After(w))
  {
    var from := After(Covering(WidestIndexed(objects)));
    var segments := SegmentsFrom(objects, from);
    forall i | 0 <= i < |segments| ensures SpanOf(Segment(segments[i].first)) == segments[i] {
      SegmentsHold(objects, from, segments[i]);
    }
  }

  /** The objects a `.vmx` covering up to `last` hides. */
  function Superseded(objects: seq<Object>, last: nat): seq<Object> {
    if objects == [] then []
    else
      var rest, o := Superseded(objects[..|objects| - 1], last), objects[|objects| - 1];
      if o.HiddenBy(last) then rest + [o] else rest
  }

  ghost predicate ListsMetrics(objects: seq<Object>, s: Stream) {
    && (forall i, j :: 0 <= i < j < |objects| ==> objects[i] != objects[j])
    && (forall o :: o in objects <==> o in s.objects)
  }

  lemma {:induction false} WidestCoversMost(objects: seq<Object>)
    ensures var w := WidestIndexed(objects);
            && (w.Some? ==> Indexed(w.value) in objects)
            && forall o :: o in objects && o.Indexed? ==> w.Some? && o.last <= w.value
  {
    if objects != [] {
      WidestCoversMost(objects[..|objects| - 1]);
      assert forall o :: o in objects <==> o in objects[..|objects| - 1] || o == objects[|objects| - 1];
    }
  }

  lemma {:induction false} SegmentsHold(objects: seq<Object>, from: nat, x: Span)
    ensures x in SegmentsFrom(objects, from) <==> x.first == x.last >= from && Segment(x.first) in objects
  {
    if objects != [] {
      var init, o := objects[..|objects| - 1], objects[|objects| - 1];
      SegmentsHold(init, from, x);
      InsertHolds(SegmentsFrom(init, from), SpanOf(o), x);
      assert Segment(x.first) in objects <==> Segment(x.first) in init || o == Segment(x.first);
    }
  }

  lemma {:induction false} SegmentsRise(objects: seq<Object>, from: nat)
    requires forall i, j :: 0 <= i < j < |objects| ==> objects[i] != objects[j]
    ensures Rising(SegmentsFrom(objects, from))
  {
    if objects != [] {
      var init, o := objects[..|objects| - 1], objects[|objects| - 1];
      SegmentsRise(init, from);
      if o.Segment? && o.seq_ >= from {
        forall i | 0 <= i < |SegmentsFrom(init, from)| ensures SegmentsFrom(init, from)[i].last != o.seq_ {
          SegmentsHold(init, from, SegmentsFrom(init, from)[i]);
        }
        InsertRises(SegmentsFrom(init, from), SpanOf(o));
      }
    }
  }

  /** The metric objects shown hold each segment exactly once, in order. */
  lemma MetricsHoldAll(objects: seq<Object>, s: Stream)
    requires Sound(s) && ListsMetrics(objects, s)
    ensures Tiles(Spans(ShownMetrics(objects)), s.next)
  {
    var w := Covering(WidestIndexed(objects));
    var shown, segments := Spans(ShownMetrics(objects)), SegmentsFrom(objects, After(w));
    ShownSpans(objects);
    WidestCoversMost(objects);
    forall x ensures x in shown <==> Due(w, s.next, x) {
      SegmentsHold(objects, After(w), x);
      assert x in shown <==> w == Some(x) || x in segments;
      if x.first == x.last && After(w) <= x.first < s.next {
        assert Holding(s.objects, x.first);
        var o :| o in s.objects && o.Holds(x.first);
        assert o in objects;
      }
    }
    SegmentsRise(objects, After(w));
    forall i | 0 <= i < |segments| ensures segments[i].last >= After(w) {
      SegmentsHold(objects, After(w), segments[i]);
    }
    DueTiles(shown, w, s.next);
  }

  lemma RunShowsAllMetrics(steps: seq<Step>, objects: seq<Object>)
    requires ListsMetrics(objects, Run(steps))
    ensures Tiles(Spans(ShownMetrics(objects)), Run(steps).next)
  {
    RunKeeps(steps);
    MetricsHoldAll(objects, Run(steps));
  }

  lemma {:induction false} SupersededHolds(objects: seq<Object>, last: nat, o: Object)
    ensures o in Superseded(objects, last) <==> o in objects && o.HiddenBy(last)
  {
    if objects != [] {
      SupersededHolds(objects[..|objects| - 1], last, o);
      assert o in objects <==> o in objects[..|objects| - 1] || o == objects[|objects| - 1];
    }
  }

  /** `superseded` names just the objects of the stream its widest `.vmx` keeps from being
      shown. */
  lemma SupersededIsHidden(objects: seq<Object>, last: nat, o: Object)
    requires WidestIndexed(objects) == Some(last) && o in objects
    ensures o in Superseded(objects, last) <==> o !in ShownMetrics(objects)
  {
    WidestCoversMost(objects);
    SupersededHolds(objects, last, o);
    var segments, shown := SegmentsFrom(objects, last + 1), ShownMetrics(objects);
    if o.Segment? {
      SegmentsHold(objects, last + 1, SpanOf(o));
      if SpanOf(o) in segments {
        var i :| 0 <= i < |segments| && segments[i] == SpanOf(o);
        assert shown[i + 1] == o;
      }
      if o in shown {
        var j :| 0 <= j < |shown| && shown[j] == o;
        SegmentsHold(objects, last + 1, segments[j - 1]);
      }
    } else {
      assert o in shown <==> o == shown[0];
    }
  }

  /** A metric object as listed, its name read. */
  datatype MetricName = MetricName(writer: string, object_: Object)

  function ObjectsOf(names: seq<MetricName>, writer: string): seq<Object> {
    if names == [] then []
    else
      var rest, n := ObjectsOf(names[..|names| - 1], writer), names[|names| - 1];
      if n.writer == writer then rest + [n.object_] else rest
  }

  /** They are the objects of that writer's names and no other's, each as often. */
  lemma {:induction false} ObjectsOfHolds(names: seq<MetricName>, writer: string, o: Object)
    ensures multiset(ObjectsOf(names, writer))[o] == multiset(names)[MetricName(writer, o)]
  {
    if names != [] {
      ObjectsOfHolds(names[..|names| - 1], writer, o);
      assert names == names[..|names| - 1] + [names[|names| - 1]];
    }
  }

  /** The segments of the objects from `from` on, gathered in listing order, sorted. */
  lemma {:induction false} GatheredSegments(objects: seq<Object>, from: nat)
    ensures SegmentsFrom(objects, from) == SegmentsFrom(OnlySegments(objects), from)
  {
    if objects != [] {
      GatheredSegments(objects[..|objects| - 1], from);
      var rest, o := OnlySegments(objects[..|objects| - 1]), objects[|objects| - 1];
      assert (rest + [o])[..|rest|] == rest;
    }
  }

  function OnlySegments(objects: seq<Object>): seq<Object> {
    if objects == [] then []
    else
      var rest, o := OnlySegments(objects[..|objects| - 1]), objects[|objects| - 1];
      if o.Segment? then rest + [o] else rest
  }

  lemma {:induction false} NoneOfEither(objects: seq<Object>)
    ensures objects == [] <==> OnlySegments(objects) == [] && WidestIndexed(objects).None?
  {
    if objects != [] {
      NoneOfEither(objects[..|objects| - 1]);
    }
  }

  /** A stream's group: its `.vmx`, if any, and its segments past it, sorted. */
  function ShownOf(streams: map<string, seq<Object>>, indexed: map<string, nat>, w: string): seq<Object> {
    var vmx := if w in indexed then Some(indexed[w]) else None;
    var segments := SegmentsFrom(if w in streams then streams[w] else [], After(Covering(vmx)));
    (if vmx.Some? then [Indexed(vmx.value)] else [])
    + seq(|segments|, i requires 0 <= i < |segments| => Segment(segments[i].first))
  }

  /** What the loop gathered of a writer's objects. */
  ghost predicate Gathered(objects: seq<Object>, streams: map<string, seq<Object>>, indexed: map<string, nat>,
                           w: string) {
    && OnlySegments(objects) == (if w in streams then streams[w] else [])
    && (w in streams ==> streams[w] != [])
    && WidestIndexed(objects) == if w in indexed then Some(indexed[w]) else None
  }

  lemma GatheredIsShown(objects: seq<Object>, streams: map<string, seq<Object>>, indexed: map<string, nat>, w: string)
    requires Gathered(objects, streams, indexed, w)
    ensures w in streams || w in indexed <==> objects != []
    ensures ShownOf(streams, indexed, w) == ShownMetrics(objects)
  {
    NoneOfEither(objects);
    GatheredSegments(objects, After(Covering(WidestIndexed(objects))));
  }

  lemma GatherStep(names: seq<MetricName>, i: nat, w: string)
    requires i < |names|
    ensures var was, n := ObjectsOf(names[..i], w), names[i];
            && ObjectsOf(names[..i + 1], w) == (if n.writer == w then was + [n.object_] else was)
            && OnlySegments(was + [n.object_]) == (if n.object_.Segment? then OnlySegments(was) + [n.object_] else OnlySegments(was))
            && WidestIndexed(was + [n.object_])
               == if n.object_.Indexed? && (WidestIndexed(was).None? || n.object_.last >= WidestIndexed(was).value)
                  then Some(n.object_.last) else WidestIndexed(was)
  {
    assert names[..i + 1][..i] == names[..i];
    var was := ObjectsOf(names[..i], w);
    assert (was + [names[i].object_])[..|was|] == was;
  }

  /** What the loop gathered of a writer's objects among the first `n` names. */
  ghost predicate GatheredAt(names: seq<MetricName>, n: nat, streams: map<string, seq<Object>>,
                             indexed: map<string, nat>, w: string)
  {
    n <= |names| && Gathered(ObjectsOf(names[..n], w), streams, indexed, w)
  }

  /** A writer with objects is shown them, and no other one. */
  ghost predicate GroupedRight(shown: map<string, seq<Object>>, names: seq<MetricName>, w: string) {
    && (w in shown <==> ObjectsOf(names, w) != [])
    && (w in shown ==> shown[w] == ShownMetrics(ObjectsOf(names, w)))
  }

  method GroupMetricNames(names: seq<MetricName>) returns (shown: map<string, seq<Object>>)
    ensures forall w :: GroupedRight(shown, names, w)
  {
    var streams: map<string, seq<Object>>, indexed: map<string, nat> := map[], map[];
    for i := 0 to |names|
      invariant forall w :: GatheredAt(names, i, streams, indexed, w)
    {
      var n := names[i];
      ghost var oldStreams, oldIndexed := streams, indexed;
      match n.object_ {
        case Indexed(last) =>
          if n.writer !in indexed || last >= indexed[n.writer] {
            indexed := indexed[n.writer := last];
          }
        case Segment(_) =>
          streams := streams[n.writer := (if n.writer in streams then streams[n.writer] else []) + [n.object_]];
      }
      ghost var next: nat := i + 1;
      forall w ensures GatheredAt(names, next, streams, indexed, w) {
        GatherStep(names, i, w);
        assert GatheredAt(names, i, oldStreams, oldIndexed, w);
      }
    }
    assert names[..|names|] == names;
    shown := map w | w in streams.Keys + indexed.Keys :: ShownOf(streams, indexed, w);
    forall w ensures GroupedRight(shown, names, w) {
      assert GatheredAt(names, |names|, streams, indexed, w);
      GatheredIsShown(ObjectsOf(names, w), streams, indexed, w);
    }
  }
}
