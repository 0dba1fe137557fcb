/**
 Reading a growing JSONL log in pieces (`complete_lines`): each read starts where the
 last one stopped consuming, and takes the complete lines and a last line that is
 already a whole entry. However the file grew between reads, the entries read are those
 of the file read at once (`PiecesReadAll`).

 `parse` stands for the JSON parser. What is asked of it and of the log is `Steady`: a
 blank line is no entry, blanks around a line do not matter, and a line of which a
 prefix is already an entry has only blanks after it.
 */
module JsonlTail {
  datatype Option<+T> = None | Some(value: T)

  type Parser<E> = string -> Option<E>

  predicate Blank(s: string) {
    forall i :: 0 <= i < |s| ==> s[i] in {' ', '\t', '\r'}
  }

  /** The text's lines, the last one unterminated. */
  function Split(data: string): (lines: seq<string>)
    ensures lines != []
  {
    if data == "" then [""]
    else
      var before, c := Split(data[..|data| - 1]), data[|data| - 1];
      if c == '\n' then before + [""] else before[..|before| - 1] + [before[|before| - 1] + [c]]
  }

  function Last(lines: seq<string>): string
    requires lines != []
  {
    lines[|lines| - 1]
  }

  function Parsed<E>(parse: Parser<E>, lines: seq<string>): seq<E> {
    if lines == [] then []
    else
      var rest, last := Parsed(parse, lines[..|lines| - 1]), parse(lines[|lines| - 1]);
      if last.Some? then rest + [last.value] else rest
  }

  /** The entries of a text, and how much of it is consumed. */
  function CompleteLines<E>(parse: Parser<E>, data: string): (seq<E>, nat) {
    var lines := Split(data);
    var tail := Last(lines);
    SplitLength(data);
    (Parsed(parse, lines),
     if parse(tail).Some? || Blank(tail) then |data| else |data| - |tail|)
  }

  lemma {:induction false} SplitLength(data: string)
    ensures |Last(Split(data))| <= |data|
    ensures Last(Split(data)) == data[|data| - |Last(Split(data))|..]
  {
    if data != "" {
      SplitLength(data[..|data| - 1]);
    }
  }

  /** `s` blank before `t`, and `t` blank after `s`. */
  predicate Leads(s: string, t: string) { Blank(s) }

  predicate Trails(s: string, t: string) { Blank(t) }

  /** Line `i` of the text is `p`, then `q`. */
  predicate IsLine(data: string, i: nat, p: string, q: string) {
    i < |Split(data)| && Split(data)[i] == p + q
  }

  ghost predicate Steady<E>(parse: Parser<E>, data: string) {
    && parse("").None?
    && (forall s, t :: Leads(s, t) ==> parse(s + t) == parse(t))
    && (forall s, t :: Trails(s, t) ==> parse(s + t) == parse(s))
    && (forall i, p, q :: IsLine(data, i, p, q) ==> parse(p).Some? ==> Blank(q))
  }

  lemma BlankIsNone<E>(parse: Parser<E>, data: string, s: string)
    requires Steady(parse, data) && Blank(s)
    ensures parse(s).None?
  {
    assert Leads(s, "");
    assert s + "" == s;
  }

  // ------------------------------------------------------------------ splitting

  /** Two lists of lines joined, the last of one going on in the first of the other. */
  function Spliced(x: seq<string>, y: seq<string>): seq<string>
    requires x != [] && y != []
  {
    x[..|x| - 1] + [Last(x) + y[0]] + y[1..]
  }

  lemma SplicedMore(x: seq<string>, y: seq<string>, c: char)
    requires x != [] && y != []
    ensures Spliced(x, y + [""]) == Spliced(x, y) + [""]
    ensures var z := Spliced(x, y);
            Spliced(x, y[..|y| - 1] + [Last(y) + [c]]) == z[..|z| - 1] + [Last(z) + [c]]
  {
    var z, w := Spliced(x, y), y[..|y| - 1] + [Last(y) + [c]];
    if |y| == 1 {
      assert w == [Last(y) + [c]] && Last(x) + (y[0] + [c]) == Last(x) + y[0] + [c];
      assert z == x[..|x| - 1] + [Last(x) + y[0]];
    } else {
      assert w[0] == y[0] && w[1..] == y[1..][..|y| - 2] + [Last(y) + [c]];
      assert Last(z) == Last(y) && z[..|z| - 1] == x[..|x| - 1] + [Last(x) + y[0]] + y[1..][..|y| - 2];
    }
    assert (y + [""])[1..] == y[1..] + [""];
  }

  /** Texts joined: the first one's last line goes on in the second one's first. */
  lemma {:induction false} SplitJoined(a: string, b: string)
    ensures Split(a + b) == Spliced(Split(a), Split(b))
  {
    if b == "" {
      assert a + b == a && Last(Split(a)) + "" == Last(Split(a));
      assert Split(a) == Split(a)[..|Split(a)| - 1] + [Last(Split(a))];
    } else {
      var init, c := b[..|b| - 1], b[|b| - 1];
      SplitJoined(a, init);
      assert (a + b)[..|a + b| - 1] == a + init && (a + b)[|a + b| - 1] == c;
      SplicedMore(Split(a), Split(init), c);
    }
  }

  lemma {:induction false} ParsedJoined<E>(parse: Parser<E>, a: seq<string>, b: seq<string>)
    ensures Parsed(parse, a + b) == Parsed(parse, a) + Parsed(parse, b)
  {
    if b == [] {
      assert a + b == a;
    } else {
      ParsedJoined(parse, a, b[..|b| - 1]);
      assert (a + b)[..|a + b| - 1] == a + b[..|b| - 1];
    }
  }

  function Alone<E>(parse: Parser<E>, line: string): seq<E> {
    if parse(line).Some? then [parse(line).value] else []
  }

  lemma ParsedOne<E>(parse: Parser<E>, line: string)
    ensures Parsed(parse, [line]) == Alone(parse, line)
  {
    assert [line][..0] == [];
    assert Parsed(parse, [line][..0]) == [];
  }

  lemma SplicedEntries<E>(parse: Parser<E>, x: seq<string>, y: seq<string>)
    requires x != [] && y != []
    requires Alone(parse, Last(x) + y[0]) == Alone(parse, Last(x)) + Alone(parse, y[0])
    ensures Parsed(parse, Spliced(x, y)) == Parsed(parse, x) + Parsed(parse, y)
  {
    var init, middle, rest := x[..|x| - 1], Last(x) + y[0], y[1..];
    SplicedParts(parse, init, middle, rest);
    SplitFirst(parse, y);
    SplitLast(parse, x);
    Regrouped(Parsed(parse, init), Alone(parse, Last(x)), Alone(parse, y[0]), Parsed(parse, rest));
  }

  lemma Regrouped<E>(a: seq<E>, b: seq<E>, c: seq<E>, d: seq<E>)
    ensures a + (b + c) + d == (a + b) + (c + d)
  {
  }

  lemma SplicedParts<E>(parse: Parser<E>, init: seq<string>, middle: string, rest: seq<string>)
    ensures Parsed(parse, init + [middle] + rest) == Parsed(parse, init) + Alone(parse, middle) + Parsed(parse, rest)
  {
    ParsedJoined(parse, init + [middle], rest);
    ParsedJoined(parse, init, [middle]);
    ParsedOne(parse, middle);
  }

  lemma SplitFirst<E>(parse: Parser<E>, y: seq<string>)
    requires y != []
    ensures Parsed(parse, y) == Alone(parse, y[0]) + Parsed(parse, y[1..])
  {
    assert y == [y[0]] + y[1..];
    ParsedJoined(parse, [y[0]], y[1..]);
    ParsedOne(parse, y[0]);
  }

  lemma SplitLast<E>(parse: Parser<E>, x: seq<string>)
    requires x != []
    ensures Parsed(parse, x) == Parsed(parse, x[..|x| - 1]) + Alone(parse, Last(x))
  {
    var rest := Parsed(parse, x[..|x| - 1]);
    assert Parsed(parse, x) == if parse(Last(x)).Some? then rest + [parse(Last(x)).value] else rest;
    assert rest + [] == rest;
  }

  /** Two texts joined have the entries of both, if the line between them is that of one. */
  lemma EntriesJoined<E>(parse: Parser<E>, a: string, b: string)
    requires Alone(parse, Last(Split(a)) + Split(b)[0]) == Alone(parse, Last(Split(a))) + Alone(parse, Split(b)[0])
    ensures Parsed(parse, Split(a + b)) == Parsed(parse, Split(a)) + Parsed(parse, Split(b))
  {
    SplitJoined(a, b);
    SplicedEntries(parse, Split(a), Split(b));
  }

  // ---------------------------------------------------------------- reading on

  /** A place to stop reading: a line's start, within its blanks, or after its entry. */
  predicate Stop<E>(parse: Parser<E>, data: string, at: nat) {
    at <= |data| &&
    var t := Last(Split(data[..at]));
    Blank(t) || parse(t).Some?
  }

  /** The line a place falls in. */
  lemma LineOf(data: string, at: nat, n: nat) returns (more: string)
    requires at <= n <= |data|
    ensures var t, g := Last(Split(data[..at])), Split(data[at..n])[0];
            IsLine(data, |Split(data[..at])| - 1, t, g + more)
  {
    more := FirstLineGrows(data[at..n], data[n..]);
    assert data[at..] == data[at..n] + data[n..];
    assert data == data[..at] + data[at..];
    SplitJoined(data[..at], data[at..]);
  }

  lemma FirstLineGrows(a: string, b: string) returns (more: string)
    ensures Split(a + b)[0] == Split(a)[0] + more
  {
    SplitJoined(a, b);
    if |Split(a)| == 1 {
      more := Split(b)[0];
    } else {
      more := "";
      assert Split(a)[0] + "" == Split(a)[0];
    }
  }

  /** What the line at a stop gives, and what follows of it. */
  lemma LineAtStop<E>(parse: Parser<E>, data: string, at: nat, n: nat)
    requires Steady(parse, data) && at <= n <= |data| && Stop(parse, data, at)
    ensures var t, g := Last(Split(data[..at])), Split(data[at..n])[0];
            if parse(t).Some? then Blank(g) && parse(g).None? && parse(t + g) == parse(t)
            else parse(t + g) == parse(g)
  {
    var t, g := Last(Split(data[..at])), Split(data[at..n])[0];
    var more := LineOf(data, at, n);
    if parse(t).Some? {
      assert Blank(g + more);
      assert forall i :: 0 <= i < |g| ==> g[i] == (g + more)[i];
      BlankIsNone(parse, data, g);
      assert Trails(t, g);
    } else {
      assert Leads(t, g);
    }
  }

  /** From a stop, what is read and what was read are what was there. */
  lemma StopSplits<E>(parse: Parser<E>, data: string, at: nat, n: nat)
    requires Steady(parse, data) && at <= n <= |data| && Stop(parse, data, at)
    ensures Parsed(parse, Split(data[..n])) == Parsed(parse, Split(data[..at])) + Parsed(parse, Split(data[at..n]))
  {
    assert data[..at] + data[at..n] == data[..n];
    LineAtStop(parse, data, at, n);
    EntriesJoined(parse, data[..at], data[at..n]);
  }

  /** Consuming everything stops at the end: the last line is blank or an entry. */
  lemma TailStops<E>(parse: Parser<E>, data: string, at: nat, n: nat)
    requires Steady(parse, data) && at <= n <= |data| && Stop(parse, data, at)
    requires var tail := Last(Split(data[at..n])); parse(tail).Some? || Blank(tail)
    ensures Stop(parse, data, n)
  {
    var a, b := data[..at], data[at..n];
    assert a + b == data[..n];
    SplitJoined(a, b);
    LastOfSpliced(Split(a), Split(b));
    if |Split(b)| == 1 {
      LineAtStop(parse, data, at, n);
      BlanksJoined(Last(Split(a)), Last(Split(b)));
    }
  }

  lemma LastOfSpliced(x: seq<string>, y: seq<string>)
    requires x != [] && y != []
    ensures Last(Spliced(x, y)) == if |y| == 1 then Last(x) + y[0] else Last(y)
  {
  }

  lemma BlanksJoined(s: string, t: string)
    ensures Blank(s) && Blank(t) ==> Blank(s + t)
  {
  }

  /** Stopping before an unfinished line stops where it starts, having read all there is. */
  lemma CutStops<E>(parse: Parser<E>, data: string, at: nat, n: nat, cut: nat)
    requires Steady(parse, data) && at <= n <= |data| && Stop(parse, data, at)
    requires at <= cut && cut + |Last(Split(data[at..n]))| == n && parse(Last(Split(data[at..n]))).None?
    ensures Stop(parse, data, cut) && Parsed(parse, Split(data[at..cut])) == Parsed(parse, Split(data[at..n]))
  {
    var b := data[at..n];
    assert data[at..cut] == b[..cut - at];
    TailNoEntry(parse, b, cut - at);
    TailStops(parse, data, at, cut);
  }

  /** What one read takes and consumes. */
  lemma ReadIs<E>(parse: Parser<E>, b: string)
    ensures var (entries, used), tail := CompleteLines(parse, b), Last(Split(b));
            && entries == Parsed(parse, Split(b)) && used <= |b|
            && (if parse(tail).Some? || Blank(tail) then used == |b| else used + |tail| == |b|)
  {
    SplitLength(b);
  }

  /** Where a read stops is a stop again, having read all there is before it and after. */
  lemma ReadStops<E>(parse: Parser<E>, data: string, at: nat, n: nat, cut: nat)
    requires Steady(parse, data) && at <= n <= |data| && Stop(parse, data, at)
    requires cut == at + CompleteLines(parse, data[at..n]).1
    ensures at <= cut <= n && Stop(parse, data, cut)
    ensures Parsed(parse, Split(data[at..cut])) == Parsed(parse, Split(data[at..n]))
  {
    var tail := Last(Split(data[at..n]));
    ReadIs(parse, data[at..n]);
    if parse(tail).Some? || Blank(tail) {
      assert cut == n;
      TailStops(parse, data, at, n);
    } else {
      CutStops(parse, data, at, n, cut);
    }
  }

  lemma ReadsToStop<E>(parse: Parser<E>, data: string, at: nat, n: nat, entries: seq<E>, cut: nat)
    requires Steady(parse, data) && at <= n <= |data| && Stop(parse, data, at)
    requires CompleteLines(parse, data[at..n]) == (entries, cut - at)
    ensures cut <= n && Stop(parse, data, cut)
    ensures Parsed(parse, Split(data[..cut])) == Parsed(parse, Split(data[..at])) + entries
    ensures Parsed(parse, Split(data[..n])) == Parsed(parse, Split(data[..at])) + entries
  {
    hide *;
    ReadIs(parse, data[at..n]);
    ReadStops(parse, data, at, n, cut);
    StopSplits(parse, data, at, n);
    StopSplits(parse, data, at, cut);
  }

  /** A text less its last line ends where a line starts. */
  lemma {:induction false} CutBeforeTail(data: string)
    ensures |Last(Split(data))| <= |data|
    ensures var cut := data[..|data| - |Last(Split(data))|];
            Split(cut) == Split(data)[..|Split(data)| - 1] + [""]
  {
    if data != "" {
      var before, c := data[..|data| - 1], data[|data| - 1];
      CutBeforeTail(before);
      if c == '\n' {
        assert data[..|data|] == data;
      } else {
        var cut := |data| - |Last(Split(data))|;
        assert data[..cut] == before[..cut];
      }
    }
  }

  lemma TailNoEntry<E>(parse: Parser<E>, b: string, used: nat)
    requires used == |b| - |Last(Split(b))| && parse(Last(Split(b))).None? && parse("").None?
    ensures Last(Split(b[..used])) == "" && Parsed(parse, Split(b[..used])) == Parsed(parse, Split(b))
  {
    CutBeforeTail(b);
    var init, tail := Split(b)[..|Split(b)| - 1], Last(Split(b));
    assert Split(b) == init + [tail];
    ParsedJoined(parse, init, [tail]);
    ParsedJoined(parse, init, [""]);
    ParsedOne(parse, tail);
    ParsedOne(parse, "");
  }

  /** What reading a growing log keeps: how much it consumed, and the entries so far. */
  datatype Reading<E> = Reading(consumed: nat, entries: seq<E>)

  /** The log read each time it had grown to one of `lengths`. */
  function ReadPieces<E>(parse: Parser<E>, data: string, lengths: seq<nat>): Reading<E> {
    if lengths == [] then Reading(0, [])
    else
      var r, n := ReadPieces(parse, data, lengths[..|lengths| - 1]), lengths[|lengths| - 1];
      if r.consumed <= n <= |data| then
        var (entries, used) := CompleteLines(parse, data[r.consumed..n]);
        Reading(r.consumed + used, r.entries + entries)
      else r
  }

  ghost predicate Growing(lengths: seq<nat>, most: nat) {
    && (forall i, j :: 0 <= i < j < |lengths| ==> lengths[i] <= lengths[j])
    && (forall i :: 0 <= i < |lengths| ==> lengths[i] <= most)
  }

  /** The log read on to `n`: where a read stops, and what was read so far. */
  lemma ReadOn<E>(parse: Parser<E>, data: string, r: Reading<E>, n: nat)
    requires Steady(parse, data) && r.consumed <= n <= |data| && Stop(parse, data, r.consumed)
    requires r.entries == Parsed(parse, Split(data[..r.consumed]))
    ensures var read := CompleteLines(parse, data[r.consumed..n]);
            && r.consumed + read.1 <= n && Stop(parse, data, r.consumed + read.1)
            && r.entries + read.0 == Parsed(parse, Split(data[..r.consumed + read.1]))
            && r.entries + read.0 == Parsed(parse, Split(data[..n]))
  {
    hide *;
    var read := CompleteLines(parse, data[r.consumed..n]);
    ReadsToStop(parse, data, r.consumed, n, read.0, r.consumed + read.1);
  }

  /** Read while it grows, at whatever lengths, a log gives the entries it gives when the
      whole of it is read at once. */
  lemma {:induction false} PiecesReadAll<E>(parse: Parser<E>, data: string, lengths: seq<nat>)
    requires Steady(parse, data) && Growing(lengths, |data|)
    ensures var r := ReadPieces(parse, data, lengths);
            var n := if lengths == [] then 0 else lengths[|lengths| - 1];
            && r.consumed <= n && Stop(parse, data, r.consumed)
            && r.entries == Parsed(parse, Split(data[..r.consumed]))
            && r.entries == CompleteLines(parse, data[..n]).0
  {
    if lengths == [] {
      assert data[..0] == "" && Split("") == [""];
      ParsedOne(parse, "");
    } else {
      var before, n := lengths[..|lengths| - 1], lengths[|lengths| - 1];
      PiecesReadAll(parse, data, before);
      ReadOn(parse, data, ReadPieces(parse, data, before), n);
    }
  }

  /** The loop over the complete lines, and the line after them. */
  method Read<E>(parse: Parser<E>, data: string) returns (entries: seq<E>, used: nat)
    ensures (entries, used) == CompleteLines(parse, data)
  {
    var lines := Split(data);
    entries := [];
    var i := 0;
    while i < |lines|
      invariant i <= |lines| && entries == Parsed(parse, lines[..i])
    {
      assert lines[..i + 1][..i] == lines[..i];
      var entry := parse(lines[i]);
      if entry.Some? {
        entries := entries + [entry.value];
      }
      i := i + 1;
    }
    assert lines[..i] == lines;
    var tail := Last(lines);
    SplitLength(data);
    used := if parse(tail).Some? || Blank(tail) then |data| else |data| - |tail|;
  }
}
