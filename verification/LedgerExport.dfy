/** Exporting a ledger page by page while it may grow between pages. */
module LedgerExport {
  import opened Common

  datatype Entry = Entry(sequence: int, id: string)
  datatype Page = Page(entries: seq<Entry>, next: Option<int>)

  /** The server as one export sees it: call number and cursor to a page, or an error. */
  type Source = (nat, int) -> Option<Page>

  /** What an export did: its result, the entries it went through and how many pages it read. */
  datatype Export = Export(ok: bool, count: nat, cursor: int, entries: seq<Entry>, calls: nat)

  /** No page names a cursor beyond the bound: int64 in Go, the last sequence in Python. */
  ghost predicate CursorsBounded(source: Source, bound: int) {
    forall call, after :: Bounded(source(call, after), bound)
  }

  predicate Bounded(page: Option<Page>, bound: int) {
    page.Some? && page.value.next.Some? ==> page.value.next.value <= bound
  }

  /** The loop against any server whatever; each further call has a larger cursor. */
  ghost function ExportFrom(source: Source, bound: int, call: nat, after: int): Export
    requires CursorsBounded(source, bound)
    decreases bound - after
  {
    var page := source(call, after);
    assert Bounded(page, bound);
    if page.None? then Export(false, 0, after, [], 1)
    else
      var Page(entries, next) := page.value;
      if next.None? || next.value <= after then Export(true, |entries|, after, entries, 1)
      else
        var rest := ExportFrom(source, bound, call + 1, next.value);
        Export(rest.ok, |entries| + rest.count, rest.cursor, entries + rest.entries, 1 + rest.calls)
  }

  /** The Go loop. Its cursor is an int64, so it ends for every server. */
  method ExportLedger(source: Source) returns (ok: bool, count: nat, after: int)
    requires CursorsBounded(source, MAX_INT64)
    ensures var e := ExportFrom(source, MAX_INT64, 0, 0);
            ok == e.ok && count == e.count && after == e.cursor
  {
    ghost var whole := ExportFrom(source, MAX_INT64, 0, 0);
    after, count := 0, 0;
    var call := 0;
    while true
      invariant var rest := ExportFrom(source, MAX_INT64, call, after);
                whole.ok == rest.ok && whole.cursor == rest.cursor && whole.count == count + rest.count
      decreases MAX_INT64 - after
    {
      var page := source(call, after);
      assert Bounded(page, MAX_INT64);
      if page.None? {
        return false, count, after;
      }
      count := count + |page.value.entries|;
      if page.value.next.None? || page.value.next.value <= after {
        return true, count, after;
      }
      after := page.value.next.value;
      call := call + 1;
    }
  }

  /** The Python loop. Integers have no end there, so termination needs a last sequence. */
  method ExportLedgerPython(source: Source, ghost last: int) returns (ok: bool, count: nat, after: int)
    requires CursorsBounded(source, last)
    ensures var e := ExportFrom(source, last, 0, 0);
            ok == e.ok && count == e.count && after == e.cursor
  {
    ghost var whole := ExportFrom(source, last, 0, 0);
    after, count := 0, 0;
    var call := 0;
    while true
      invariant var rest := ExportFrom(source, last, call, after);
                whole.ok == rest.ok && whole.cursor == rest.cursor && whole.count == count + rest.count
      decreases last - after
    {
      var page := source(call, after);
      assert Bounded(page, last);
      if page.None? {
        return false, count, after;
      }
      count := count + |page.value.entries|;
      var nextAfter := page.value.next;
      if nextAfter.None? || nextAfter.value <= after {
        return true, count, after;
      }
      after := nextAfter.value;
      call := call + 1;
    }
  }

  // ---- Against any server ----

  /** The calls of one export: each asks behind the cursor the page before named, which was further on. */
  ghost predicate Asked(source: Source, call: nat, asked: seq<int>) {
    forall i :: 0 <= i < |asked| - 1 ==>
      && source(call + i, asked[i]).Some?
      && source(call + i, asked[i]).value.next == Some(asked[i + 1]) && asked[i + 1] > asked[i]
  }

  /** Every call brought a page. */
  ghost predicate AllAnswered(source: Source, call: nat, asked: seq<int>) {
    forall i :: 0 <= i < |asked| ==> source(call + i, asked[i]).Some?
  }

  /** The entries of the pages those calls brought, in order. */
  ghost function Brought(source: Source, call: nat, asked: seq<int>): seq<Entry>
    decreases |asked|
  {
    if asked == [] then []
    else
      var page := source(call, asked[0]);
      (if page.Some? then page.value.entries else []) + Brought(source, call + 1, asked[1..])
  }

  /** This is the export that made these calls: ok exactly when every call brought a page, ended by an
      error or by a page that names no further cursor, reporting the number of entries it went
      through and the cursor it asked for last. */
  ghost predicate Made(source: Source, call: nat, asked: seq<int>, e: Export) {
    && |asked| == e.calls >= 1 && Asked(source, call, asked) && e.cursor == asked[e.calls - 1]
    && (e.ok <==> AllAnswered(source, call, asked))
    && (var last := source(call + e.calls - 1, e.cursor);
        last.Some? ==> last.value.next.None? || last.value.next.value <= e.cursor)
    && e.entries == Brought(source, call, asked) && e.count == |e.entries|
  }

  lemma AskedOneMore(source: Source, call: nat, after: int, rest: seq<int>)
    requires rest != [] && source(call, after).Some? && source(call, after).value.next == Some(rest[0]) && rest[0] > after
    requires Asked(source, call + 1, rest)
    ensures Asked(source, call, [after] + rest)
    ensures AllAnswered(source, call, [after] + rest) <==> AllAnswered(source, call + 1, rest)
    ensures Brought(source, call, [after] + rest) == source(call, after).value.entries + Brought(source, call + 1, rest)
  {
    var asked := [after] + rest;
    assert asked[1..] == rest;
    forall i | 0 <= i < |asked| - 1
      ensures source(call + i, asked[i]).Some?
      ensures source(call + i, asked[i]).value.next == Some(asked[i + 1]) && asked[i + 1] > asked[i]
    {
      if i > 0 { assert source(call + 1 + (i - 1), rest[i - 1]).Some?; }
    }
    if AllAnswered(source, call, asked) {
      forall i | 0 <= i < |rest| ensures source(call + 1 + i, rest[i]).Some? {
        assert source(call + (i + 1), asked[i + 1]).Some?;
      }
    }
    if AllAnswered(source, call + 1, rest) {
      forall i | 0 <= i < |asked| ensures source(call + i, asked[i]).Some? {
        if i > 0 { assert source(call + 1 + (i - 1), rest[i - 1]).Some?; }
      }
    }
  }

  lemma MadeOneMore(source: Source, call: nat, after: int, rest: seq<int>, e: Export)
    requires rest != [] && source(call, after).Some? && source(call, after).value.next == Some(rest[0]) && rest[0] > after
    requires Made(source, call + 1, rest, e)
    ensures var entries := source(call, after).value.entries;
            Made(source, call, [after] + rest, Export(e.ok, |entries| + e.count, e.cursor, entries + e.entries, 1 + e.calls))
  {
    AskedOneMore(source, call, after, rest);
    hide AllAnswered, Asked, Brought;
    assert ([after] + rest)[e.calls] == rest[e.calls - 1];
  }

  lemma MadeAtOnce(source: Source, call: nat, after: int)
    ensures var page := source(call, after);
            && (page.None? ==> Made(source, call, [after], Export(false, 0, after, [], 1)))
            && (page.Some? && (page.value.next.None? || page.value.next.value <= after) ==>
                  Made(source, call, [after], Export(true, |page.value.entries|, after, page.value.entries, 1)))
  {
    assert [after][1..] == [] && Brought(source, call + 1, []) == [];
    assert source(call + 0, [after][0]) == source(call, after);
  }

  /** Whatever the server does, an export makes one chain of calls along its cursors, and reports it. */
  lemma {:induction false} ExportFollowsTheCursors(source: Source, bound: int, call: nat, after: int)
    returns (asked: seq<int>)
    requires CursorsBounded(source, bound)
    ensures asked != [] && asked[0] == after && Made(source, call, asked, ExportFrom(source, bound, call, after))
    decreases bound - after
  {
    hide Made, Passed;
    var page := source(call, after);
    assert Bounded(page, bound);
    if page.None? || page.value.next.None? || page.value.next.value <= after {
      asked := [after];
      MadeAtOnce(source, call, after);
    } else {
      var rest := ExportFollowsTheCursors(source, bound, call + 1, page.value.next.value);
      asked := [after] + rest;
      MadeOneMore(source, call, after, rest, ExportFrom(source, bound, call + 1, page.value.next.value));
    }
  }

  // ---- Against an append-only ledger ----

  ghost predicate Ascending(l: seq<Entry>) {
    && (forall i, j :: 0 <= i < j < |l| ==> l[i].sequence < l[j].sequence)
    && (forall i :: 0 <= i < |l| ==> l[i].sequence >= 1)
  }

  /** How many entries a reader with this cursor has passed. */
  function Passed(l: seq<Entry>, after: int): (n: nat)
    ensures n <= |l|
  {
    if l == [] || l[0].sequence > after then 0 else 1 + Passed(l[1..], after)
  }

  function UpTo(l: seq<Entry>, cursor: int): seq<Entry> {
    l[..Passed(l, cursor)]
  }

  /** The page of an honest server: some of the next entries, however many, and their last sequence
      as the cursor; an empty page names no further cursor. */
  predicate HonestPage(l: seq<Entry>, after: int, page: Option<Page>) {
    && page.Some?
    && page.value.entries <= l[Passed(l, after)..]
    && if page.value.entries == []
       then page.value.next.Some? ==> page.value.next.value <= after
       else page.value.next == Some(page.value.entries[|page.value.entries| - 1].sequence)
  }

  /** The page is empty only at the end of the ledger. */
  predicate Progresses(l: seq<Entry>, after: int, page: Option<Page>) {
    page.Some? && page.value.entries == [] ==> Passed(l, after) == |l|
  }

  /** The ledger at the time of each call: ascending, and only ever appended to. */
  ghost predicate AppendOnly(ledger: nat -> seq<Entry>) {
    && (forall c :: Ascending(ledger(c)))
    && (forall c, d :: c <= d ==> ledger(c) <= ledger(d))
  }

  ghost predicate Honest(source: Source, ledger: nat -> seq<Entry>) {
    forall call, after :: after >= 0 ==> HonestPage(ledger(call), after, source(call, after))
  }

  ghost predicate Progressing(source: Source, ledger: nat -> seq<Entry>) {
    forall call, after :: after >= 0 ==> Progresses(ledger(call), after, source(call, after))
  }

  /** The cursor stands right after the first j entries. */
  ghost predicate StandsAt(l: seq<Entry>, after: int, j: nat) {
    j <= |l| && if j == 0 then after == 0 else l[j - 1].sequence == after
  }

  lemma {:induction false} PassedCount(l: seq<Entry>, after: int, j: nat)
    requires Ascending(l) && j <= |l|
    requires j > 0 ==> l[j - 1].sequence <= after
    requires j < |l| ==> l[j].sequence > after
    ensures Passed(l, after) == j
    decreases |l|
  {
    if j > 0 {
      assert forall i :: 0 <= i < |l[1..]| ==> l[1..][i] == l[i + 1];
      PassedCount(l[1..], after, j - 1);
    }
  }

  lemma StandingPassed(l: seq<Entry>, after: int, j: nat)
    requires Ascending(l) && StandsAt(l, after, j)
    ensures Passed(l, after) == j && after >= 0
  {
    PassedCount(l, after, j);
  }

  /** An honest page read at j moves the cursor behind its entries, if it has any. */
  lemma HonestStep(l: seq<Entry>, after: int, j: nat, page: Option<Page>)
    requires Ascending(l) && StandsAt(l, after, j) && HonestPage(l, after, page)
    ensures page.Some? && after >= 0
    ensures var m := j + |page.value.entries|;
            && m <= |l| && page.value.entries == l[j..m]
            && (m == j ==> page.value.next.None? || page.value.next.value <= after)
            && (m > j ==> page.value.next == Some(l[m - 1].sequence) && l[m - 1].sequence > after)
    ensures Progresses(l, after, page) && page.value.entries == [] ==> j == |l|
  {
    StandingPassed(l, after, j);
    var m := j + |page.value.entries|;
    assert page.value.entries == l[j..][..m - j] == l[j..m];
  }

  /** Growth keeps a cursor where it stands. */
  lemma StandingSurvivesGrowth(l: seq<Entry>, l': seq<Entry>, after: int, j: nat)
    requires l <= l' && StandsAt(l, after, j)
    ensures StandsAt(l', after, j)
  {
  }

  lemma Spliced(l: seq<Entry>, final: seq<Entry>, j: nat, m: nat, n: nat)
    requires l <= final && j <= m <= |l| && m <= n <= |final|
    ensures l[j..m] + final[m..n] == final[j..n]
  {
  }

  /** The export from j on went through what the ledger of its last call holds from j up to n, and
      its cursor stands there. */
  ghost predicate Took(ledger: nat -> seq<Entry>, call: nat, j: nat, n: nat, e: Export) {
    && e.ok && e.calls >= 1 && e.count == |e.entries|
    && var final := ledger(call + e.calls - 1);
       j <= n <= |final| && e.entries == final[j..n] && StandsAt(final, e.cursor, n)
  }

  lemma PrependPage(ledger: nat -> seq<Entry>, call: nat, j: nat, m: nat, n: nat, rest: Export)
    requires AppendOnly(ledger) && j <= m <= |ledger(call)|
    requires Took(ledger, call + 1, m, n, rest)
    ensures Took(ledger, call, j, n,
              Export(rest.ok, m - j + rest.count, rest.cursor, ledger(call)[j..m] + rest.entries, 1 + rest.calls))
  {
    var final := ledger(call + rest.calls);
    assert ledger(call) <= final;
    Spliced(ledger(call), final, j, m, n);
  }

  lemma StopHere(ledger: nat -> seq<Entry>, call: nat, after: int, j: nat)
    requires StandsAt(ledger(call), after, j)
    ensures Took(ledger, call, j, j, Export(true, 0, after, [], 1))
  {
  }

  lemma ExportUnfolds(source: Source, bound: int, call: nat, after: int, page: Page)
    requires CursorsBounded(source, bound) && source(call, after) == Some(page)
    ensures page.next.None? || page.next.value <= after ==>
              ExportFrom(source, bound, call, after) == Export(true, |page.entries|, after, page.entries, 1)
    ensures page.next.Some? && page.next.value > after ==>
              && page.next.value <= bound
              && var rest := ExportFrom(source, bound, call + 1, page.next.value);
                 ExportFrom(source, bound, call, after)
                   == Export(rest.ok, |page.entries| + rest.count, rest.cursor, page.entries + rest.entries, 1 + rest.calls)
  {
    assert Bounded(source(call, after), bound);
  }

  /** How far the page read at j goes. */
  function PageEnd(source: Source, call: nat, after: int, j: nat): nat {
    var page := source(call, after);
    if page.None? then j else j + |page.value.entries|
  }

  lemma ReadAt(source: Source, ledger: nat -> seq<Entry>, call: nat, after: int, j: nat)
    requires AppendOnly(ledger) && Honest(source, ledger) && StandsAt(ledger(call), after, j)
    ensures Ascending(ledger(call)) && ledger(call) <= ledger(call + 1)
    ensures HonestPage(ledger(call), after, source(call, after))
    ensures Progressing(source, ledger) ==> Progresses(ledger(call), after, source(call, after))
  {
    assert Ascending(ledger(call));
    StandingPassed(ledger(call), after, j);
    hide HonestPage, Progresses, Passed, Ascending;
  }

  /** One call of an export at j: it ends there, or it goes on standing behind the page. */
  lemma ExportStep(source: Source, ledger: nat -> seq<Entry>, bound: int, call: nat, after: int, j: nat)
    requires CursorsBounded(source, bound) && AppendOnly(ledger) && Honest(source, ledger)
    requires StandsAt(ledger(call), after, j)
    ensures var l, e := ledger(call), ExportFrom(source, bound, call, after);
            var m := PageEnd(source, call, after, j);
            && j <= m <= |l|
            && (j == m ==> e == Export(true, 0, after, [], 1) && (Progressing(source, ledger) ==> j == |l|))
            && (j < m ==>
                  var next := l[m - 1].sequence;
                  && after < next <= bound && StandsAt(ledger(call + 1), next, m)
                  && var rest := ExportFrom(source, bound, call + 1, next);
                     e == Export(rest.ok, m - j + rest.count, rest.cursor, l[j..m] + rest.entries, 1 + rest.calls))
  {
    hide HonestPage, Progresses, Progressing, Ascending, AppendOnly, Honest, CursorsBounded, Passed, ExportFrom;
    var l, page := ledger(call), source(call, after);
    ReadAt(source, ledger, call, after, j);
    HonestStep(l, after, j, page);
    ExportUnfolds(source, bound, call, after, page.value);
    var m := PageEnd(source, call, after, j);
    if j < m { StandingSurvivesGrowth(l, ledger(call + 1), l[m - 1].sequence, m); }
  }

  /** Where the export that stands after j entries ends up. */
  ghost function EndOf(source: Source, ledger: nat -> seq<Entry>, bound: int, call: nat, after: int, j: nat): (n: nat)
    requires CursorsBounded(source, bound)
    decreases bound - after
  {
    var m := PageEnd(source, call, after, j);
    if j < m <= |ledger(call)| && after < ledger(call)[m - 1].sequence <= bound
    then EndOf(source, ledger, bound, call + 1, ledger(call)[m - 1].sequence, m) else j
  }

  /** From any cursor that stands after j entries, the export goes through the entries from there to
      where its cursor ends, which is the end of the ledger if no page was empty before. */
  lemma {:induction false} ExportTakesTheRest(
    source: Source, ledger: nat -> seq<Entry>, bound: int, call: nat, after: int, j: nat)
    requires CursorsBounded(source, bound) && AppendOnly(ledger) && Honest(source, ledger)
    requires StandsAt(ledger(call), after, j)
    ensures var e, n := ExportFrom(source, bound, call, after), EndOf(source, ledger, bound, call, after, j);
            && Took(ledger, call, j, n, e)
            && (Progressing(source, ledger) ==> n == |ledger(call + e.calls - 1)|)
    decreases bound - after
  {
    hide CursorsBounded, AppendOnly, Honest, StandsAt, Took, ExportFrom, Progressing;
    ExportStep(source, ledger, bound, call, after, j);
    var l, m := ledger(call), PageEnd(source, call, after, j);
    if j == m {
      StopHere(ledger, call, after, j);
    } else {
      var next := l[m - 1].sequence;
      ExportTakesTheRest(source, ledger, bound, call + 1, next, m);
      PrependPage(ledger, call, j, m, EndOf(source, ledger, bound, call + 1, next, m),
                  ExportFrom(source, bound, call + 1, next));
    }
  }

  /** Unduplicated, whatever the size of the pages: in order they are exactly what the ledger holds
      in (0, cursor], at the last call and at any later time, and count is their number. */
  lemma ExportIsExact(source: Source, ledger: nat -> seq<Entry>, bound: int, later: nat)
    requires CursorsBounded(source, bound) && AppendOnly(ledger) && Honest(source, ledger)
    requires later + 1 >= ExportFrom(source, bound, 0, 0).calls
    ensures var e := ExportFrom(source, bound, 0, 0);
            e.ok && e.calls >= 1 && e.count == |e.entries| && e.entries == UpTo(ledger(later), e.cursor)
  {
    hide ExportFrom, CursorsBounded, Honest, Passed, Progressing;
    assert StandsAt(ledger(0), 0, 0);
    ExportTakesTheRest(source, ledger, bound, 0, 0, 0);
    var e, n := ExportFrom(source, bound, 0, 0), EndOf(source, ledger, bound, 0, 0, 0);
    var final, grown := ledger(e.calls - 1), ledger(later);
    assert final <= grown && Ascending(grown);
    StandingSurvivesGrowth(final, grown, e.cursor, n);
    StandingPassed(grown, e.cursor, n);
    assert grown[..n] == final[..n] == final[0..n];
  }

  /** Complete: if no page is empty before the end, the pages are in order exactly the ledger as it
      stood at the last call. */
  lemma ExportIsComplete(source: Source, ledger: nat -> seq<Entry>, bound: int)
    requires CursorsBounded(source, bound) && AppendOnly(ledger)
    requires Honest(source, ledger) && Progressing(source, ledger)
    ensures var e := ExportFrom(source, bound, 0, 0);
            e.ok && e.calls >= 1 && e.count == |e.entries| && e.entries == ledger(e.calls - 1)
  {
    hide ExportFrom, CursorsBounded, Honest, Passed, Progressing;
    assert StandsAt(ledger(0), 0, 0);
    ExportTakesTheRest(source, ledger, bound, 0, 0, 0);
  }

  // ---- Such servers exist ----

  /** The next entries up to a fixed number, as the service pages its ledger. */
  function FixedPage(l: seq<Entry>, size: nat, after: int): Option<Page> {
    var rest := l[Passed(l, after)..];
    var entries := rest[..if |rest| < size then |rest| else size];
    Some(Page(entries, if entries == [] then None else Some(entries[|entries| - 1].sequence)))
  }

  lemma FixedPageIsHonest(l: seq<Entry>, size: nat, bound: int, after: int)
    requires size >= 1 && (forall i :: 0 <= i < |l| ==> l[i].sequence <= bound)
    ensures var page := FixedPage(l, size, after);
            HonestPage(l, after, page) && Progresses(l, after, page) && Bounded(page, bound)
  {
    var page, rest := FixedPage(l, size, after).value, l[Passed(l, after)..];
    if page.entries != [] {
      var k := |page.entries| - 1;
      assert page.entries[k] == rest[k] == l[Passed(l, after) + k];
    }
  }

  /** A server with pages of a fixed size meets every assumption made here. */
  lemma FixedPagesAreHonest(l: seq<Entry>, size: nat, bound: int)
    requires Ascending(l) && size >= 1 && (forall i :: 0 <= i < |l| ==> l[i].sequence <= bound)
    ensures var source: Source, ledger: nat -> seq<Entry> := (call, after) => FixedPage(l, size, after), call => l;
            CursorsBounded(source, bound) && AppendOnly(ledger) && Honest(source, ledger) && Progressing(source, ledger)
  {
    hide FixedPage, HonestPage, Progresses, Bounded, Ascending;
    forall after ensures var page := FixedPage(l, size, after);
                         HonestPage(l, after, page) && Progresses(l, after, page) && Bounded(page, bound)
    {
      FixedPageIsHonest(l, size, bound, after);
    }
  }
}
