/** `scan_all`: resuming a paged range scan after the last key of each page, in either
    direction.

    The broker's answers are given as a sequence, one for each request that reaches it. */
module KvScans {
  import opened Bytes
  import opened Options

  datatype Pair = Pair(key: bytes, value: bytes)

  datatype Page = Page(entries: seq<Pair>, hasMore: bool)

  /** The bounds of a scan.  Whether the broker counts the end bound as part of the range is
      its own affair, `endInclusive`. */
  datatype Range = Range(start: Option<bytes>, exclusive: bool, end: Option<bytes>, endInclusive: bool, reverse: bool)

  /** `Unanswered`: the next request has not been answered yet. */
  datatype Outcome = Complete | Truncated | Unanswered

  datatype Scan = Scan(yielded: seq<Pair>, outcome: Outcome, asked: seq<Range>)

  // ----- The client -----

  /** The bounds guard of `scan_page`. */
  predicate Guarded(r: Range) {
    r.start.Some? && r.end.Some? &&
    (if r.reverse then Less(r.start.value, r.end.value) else Less(r.end.value, r.start.value))
  }

  function After(r: Range, key: bytes): Range {
    r.(start := Some(key), exclusive := true)
  }

  function ScanAll(r: Range, answers: seq<Page>): Scan
    decreases |answers|
  {
    if Guarded(r) then Scan([], Complete, [])
    else if answers == [] then Scan([], Unanswered, [r])
    else
      var entries, hasMore := answers[0].entries, answers[0].hasMore;
      if hasMore && entries == [] then Scan([], Truncated, [r])
      else if !hasMore then Scan(entries, Complete, [r])
      else
        var rest := ScanAll(After(r, entries[|entries| - 1].key), answers[1..]);
        Scan(entries + rest.yielded, rest.outcome, [r] + rest.asked)
  }

  /** What a scan has yielded and asked for, going on with `r`. */
  function Going(yielded: seq<Pair>, asked: seq<Range>, r: Range, answers: seq<Page>): Scan {
    var rest := ScanAll(r, answers);
    Scan(yielded + rest.yielded, rest.outcome, asked + rest.asked)
  }

  lemma ScanGoesOn(r: Range, answers: seq<Page>, yielded: seq<Pair>, asked: seq<Range>)
    requires !Guarded(r) && answers != [] && answers[0].hasMore && answers[0].entries != []
    ensures var entries := answers[0].entries;
      Going(yielded, asked, r, answers)
      == Going(yielded + entries, asked + [r], After(r, entries[|entries| - 1].key), answers[1..])
  {
    var entries := answers[0].entries;
    var rest := ScanAll(After(r, entries[|entries| - 1].key), answers[1..]);
    hide Guarded;
    assert yielded + (entries + rest.yielded) == (yielded + entries) + rest.yielded;
    assert asked + ([r] + rest.asked) == (asked + [r]) + rest.asked;
  }

  /** `scan_all` with its loop. */
  method RunScanAll(start: Option<bytes>, end: Option<bytes>, endInclusive: bool, reverse: bool, answers: seq<Page>)
    returns (yielded: seq<Pair>, outcome: Outcome, ghost asked: seq<Range>)
    ensures var scan := ScanAll(Range(start, false, end, endInclusive, reverse), answers);
      yielded == scan.yielded && outcome == scan.outcome
    ensures asked == ScanAll(Range(start, false, end, endInclusive, reverse), answers).asked
  {
    var nextStart, exclusive, i := start, false, 0;
    yielded, asked := [], [];
    ghost var whole := ScanAll(Range(start, false, end, endInclusive, reverse), answers);
    hide Guarded, Less;
    while true
      invariant i <= |answers|
      invariant whole == Going(yielded, asked, Range(nextStart, exclusive, end, endInclusive, reverse), answers[i..])
      decreases |answers| - i
    {
      var r := Range(nextStart, exclusive, end, endInclusive, reverse);
      if Guarded(r) {
        return yielded, Complete, asked;
      }
      ghost var before := asked;
      asked := asked + [r];
      if i == |answers| {
        return yielded, Unanswered, asked;
      }
      var page := answers[i];
      assert answers[i..][0] == page && answers[i..][1..] == answers[i + 1..];
      if page.hasMore && page.entries == [] {
        return yielded, Truncated, asked;
      }
      ghost var soFar := yielded;
      yielded := yielded + page.entries;
      if !page.hasMore {
        return yielded, Complete, asked;
      }
      ScanGoesOn(r, answers[i..], soFar, before);
      nextStart, exclusive, i := Some(page.entries[|page.entries| - 1].key), true, i + 1;
    }
  }

  // ----- The store -----

  /** `a` comes before `b` in the direction of the scan. */
  predicate Before(reverse: bool, a: bytes, b: bytes) {
    if reverse then Less(b, a) else Less(a, b)
  }

  predicate Sorted(entries: seq<Pair>, reverse: bool) {
    forall i, j :: 0 <= i < j < |entries| ==> Before(reverse, entries[i].key, entries[j].key)
  }

  predicate PastStart(r: Range, key: bytes) {
    r.start == None || Before(r.reverse, r.start.value, key) || (key == r.start.value && !r.exclusive)
  }

  predicate WithinEnd(r: Range, key: bytes) {
    r.end == None || Before(r.reverse, key, r.end.value) || (key == r.end.value && r.endInclusive)
  }

  predicate Contains(r: Range, key: bytes) {
    PastStart(r, key) && WithinEnd(r, key)
  }

  function Select(entries: seq<Pair>, r: Range): seq<Pair> {
    if entries == [] then []
    else (if Contains(r, entries[0].key) then [entries[0]] else []) + Select(entries[1..], r)
  }

  function Reversed(entries: seq<Pair>): (r: seq<Pair>)
    ensures |r| == |entries|
    ensures forall i :: 0 <= i < |r| ==> r[i] == entries[|entries| - 1 - i]
  {
    if entries == [] then [] else Reversed(entries[1..]) + [entries[0]]
  }

  /** The pairs of the range in the order in which the scan meets them. */
  function InRange(store: seq<Pair>, r: Range): seq<Pair> {
    Select(if r.reverse then Reversed(store) else store, r)
  }

  /** An honest page: some first part of what is left, at least one pair if anything is, and
      `has_more` whenever something is left after it.  The page with the last pair may
      announce more too; the empty page that then follows may not. */
  predicate HonestPage(page: Page, left: seq<Pair>) {
    && page.entries <= left
    && (left != [] || page.hasMore ==> page.entries != [])
    && (page.entries != left ==> page.hasMore)
  }

  predicate HonestBroker(store: seq<Pair>, r: Range, answers: seq<Page>)
    decreases |answers|
  {
    !Guarded(r) && answers != [] ==>
      && HonestPage(answers[0], InRange(store, r))
      && (answers[0].hasMore ==>
            HonestBroker(store, After(r, answers[0].entries[|answers[0].entries| - 1].key), answers[1..]))
  }

  // ----- Selecting -----

  lemma BeforeIsTransitive(reverse: bool, a: bytes, b: bytes, c: bytes)
    requires Before(reverse, a, b) && Before(reverse, b, c)
    ensures Before(reverse, a, c)
  {
    if reverse { LessIsTransitive(c, b, a); } else { LessIsTransitive(a, b, c); }
  }

  lemma BeforeIsStrict(reverse: bool, a: bytes, b: bytes)
    requires Before(reverse, a, b)
    ensures a != b && !Before(reverse, b, a)
  {
    LessIsIrreflexive(a);
    if Before(reverse, b, a) {
      BeforeIsTransitive(reverse, a, b, a);
    }
  }

  lemma {:induction false} SelectAppend(a: seq<Pair>, b: seq<Pair>, r: Range)
    ensures Select(a + b, r) == Select(a, r) + Select(b, r)
    decreases |a|
  {
    if a == [] {
      assert a + b == b;
    } else {
      SelectAppend(a[1..], b, r);
      assert (a + b)[1..] == a[1..] + b;
    }
  }

  lemma {:induction false} SelectNone(a: seq<Pair>, r: Range)
    requires forall i :: 0 <= i < |a| ==> !Contains(r, a[i].key)
    ensures Select(a, r) == []
  {
    if a != [] {
      SelectNone(a[1..], r);
    }
  }

  lemma {:induction false} SelectEvery(a: seq<Pair>, r: Range)
    requires forall i :: 0 <= i < |a| ==> Contains(r, a[i].key)
    ensures Select(a, r) == a
  {
    if a != [] {
      SelectEvery(a[1..], r);
    }
  }

  lemma {:induction false} SelectTwice(a: seq<Pair>, wide: Range, narrow: Range)
    requires forall i :: 0 <= i < |a| && Contains(narrow, a[i].key) ==> Contains(wide, a[i].key)
    ensures Select(Select(a, wide), narrow) == Select(a, narrow)
  {
    if a != [] {
      SelectTwice(a[1..], wide, narrow);
      var rest := Select(a[1..], wide);
      if Contains(wide, a[0].key) {
        assert Select(a, wide) == [a[0]] + rest;
        SelectAppend([a[0]], rest, narrow);
        assert [a[0]][1..] == [] && Select([a[0]], narrow) == if Contains(narrow, a[0].key) then [a[0]] else [];
      } else {
        assert Select(a, wide) == [] + rest == rest;
        assert Select(a, narrow) == [] + Select(a[1..], narrow) == Select(a[1..], narrow);
      }
    }
  }

  lemma {:induction false} SelectedIsSorted(a: seq<Pair>, r: Range)
    requires Sorted(a, r.reverse)
    ensures Sorted(Select(a, r), r.reverse)
    ensures forall p :: p in Select(a, r) ==> p in a && Contains(r, p.key)
  {
    if a != [] {
      SelectedIsSorted(a[1..], r);
      var rest := Select(a[1..], r);
      forall p | p in rest
        ensures Before(r.reverse, a[0].key, p.key)
      {
        var i :| 0 <= i < |a[1..]| && a[1..][i] == p;
        assert a[i + 1] == p;
      }
    }
  }

  lemma ReversedIsSorted(store: seq<Pair>)
    requires Sorted(store, false)
    ensures Sorted(Reversed(store), true)
  {
    var r := Reversed(store);
    forall i, j | 0 <= i < j < |r|
      ensures Before(true, r[i].key, r[j].key)
    {
      assert Before(false, store[|store| - 1 - j].key, store[|store| - 1 - i].key);
    }
  }

  /** The pairs of the range come out once each, in scan order, and are exactly the store's
      pairs with a key in the range. */
  lemma InRangeIsTheRange(store: seq<Pair>, r: Range)
    requires Sorted(store, false)
    ensures Sorted(InRange(store, r), r.reverse)
    ensures forall p :: p in InRange(store, r) <==> p in store && Contains(r, p.key)
  {
    var a := if r.reverse then Reversed(store) else store;
    ReversedIsSorted(store);
    SelectedIsSorted(a, r);
    forall p | p in store && Contains(r, p.key)
      ensures p in Select(a, r)
    {
      var i :| 0 <= i < |store| && store[i] == p;
      var j := if r.reverse then |store| - 1 - i else i;
      assert a[j] == p && a == a[..j] + ([p] + a[j + 1..]);
      SelectAppend(a[..j], [p] + a[j + 1..], r);
      assert ([p] + a[j + 1..])[0] == p;
      assert p in Select([p] + a[j + 1..], r);
    }
  }

  /** After a first part of the range, asking again past its last key leaves the rest. */
  lemma PastThePage(store: seq<Pair>, r: Range, n: nat)
    requires Sorted(store, false) && 0 < n <= |InRange(store, r)|
    ensures InRange(store, After(r, InRange(store, r)[n - 1].key)) == InRange(store, r)[n..]
  {
    var a := if r.reverse then Reversed(store) else store;
    var whole := Select(a, r);
    var key := whole[n - 1].key;
    ReversedIsSorted(store);
    SelectedIsSorted(a, r);
    assert whole[n - 1] in whole;
    forall i | 0 <= i < |a| && Contains(After(r, key), a[i].key)
      ensures Contains(r, a[i].key)
    {
      if r.start.Some? && Before(r.reverse, r.start.value, key) {
        BeforeIsTransitive(r.reverse, r.start.value, key, a[i].key);
      }
    }
    SelectTwice(a, r, After(r, key));
    assert forall i :: 0 <= i < |whole| ==> whole[i] in whole;
    SelectTail(whole, r, n);
  }

  lemma SelectTail(whole: seq<Pair>, r: Range, n: nat)
    requires Sorted(whole, r.reverse) && 0 < n <= |whole|
    requires forall i :: 0 <= i < |whole| ==> Contains(r, whole[i].key)
    ensures Select(whole, After(r, whole[n - 1].key)) == whole[n..]
  {
    forall i | 0 <= i < |whole|
      ensures Contains(After(r, whole[n - 1].key), whole[i].key) <==> n <= i
    {
      PastOrNot(whole, r, n, i);
    }
    KeepsTail(whole, After(r, whole[n - 1].key), n);
  }

  lemma KeepsTail(whole: seq<Pair>, narrow: Range, n: nat)
    requires n <= |whole|
    requires forall i :: 0 <= i < |whole| ==> (Contains(narrow, whole[i].key) <==> n <= i)
    ensures Select(whole, narrow) == whole[n..]
  {
    hide Contains, Select;
    SelectNone(whole[..n], narrow);
    SelectEvery(whole[n..], narrow);
    SelectAppend(whole[..n], whole[n..], narrow);
    assert whole == whole[..n] + whole[n..] && [] + whole[n..] == whole[n..];
  }

  lemma PastOrNot(whole: seq<Pair>, r: Range, n: nat, i: nat)
    requires Sorted(whole, r.reverse) && 0 < n <= |whole| && i < |whole| && Contains(r, whole[i].key)
    ensures Contains(After(r, whole[n - 1].key), whole[i].key) <==> n <= i
  {
    var key := whole[n - 1].key;
    if i < n - 1 {
      BeforeIsStrict(r.reverse, whole[i].key, key);
    } else if i == n - 1 {
      NotBeforeItself(r.reverse, key);
    }
  }

  lemma NotBeforeItself(reverse: bool, key: bytes)
    ensures !Before(reverse, key, key)
  {
    LessIsIrreflexive(key);
  }

  // ----- What a scan yields -----

  /** A range whose bounds the guard finds crossed holds nothing. */
  lemma GuardedIsEmpty(store: seq<Pair>, r: Range)
    requires Guarded(r)
    ensures InRange(store, r) == []
  {
    var a := if r.reverse then Reversed(store) else store;
    forall i | 0 <= i < |a|
      ensures !Contains(r, a[i].key)
    {
      var key := a[i].key;
      if Contains(r, key) {
        assert Before(r.reverse, r.end.value, r.start.value);
        if Before(r.reverse, key, r.end.value) {
          BeforeIsTransitive(r.reverse, key, r.end.value, r.start.value);
        }
        if Before(r.reverse, r.start.value, key) {
          BeforeIsStrict(r.reverse, r.start.value, key);
        }
        BeforeIsStrict(r.reverse, r.end.value, r.start.value);
        assert false;
      }
    }
    SelectNone(a, r);
  }

  /** A scan asks the broker nothing exactly if its bounds are crossed in its direction, and is
      then complete with nothing; any other scan asks for its own range first. */
  lemma CrossedBoundsAskNothing(r: Range, answers: seq<Page>)
    ensures ScanAll(r, answers).asked == [] <==>
      r.start.Some? && r.end.Some? && Before(r.reverse, r.end.value, r.start.value)
    ensures ScanAll(r, answers).asked == [] ==> ScanAll(r, answers) == Scan([], Complete, [])
    ensures ScanAll(r, answers).asked != [] ==> ScanAll(r, answers).asked[0] == r
  {
  }

  /** Every later request is for what lies past the last key of the page before it, up to the
      same end and in the same direction. */
  lemma {:induction false} AsksForTheRest(r: Range, answers: seq<Page>, i: nat)
    requires i + 1 < |ScanAll(r, answers).asked|
    ensures i < |answers| && answers[i].entries != [] && answers[i].hasMore
    ensures ScanAll(r, answers).asked[i + 1]
         == r.(start := Some(answers[i].entries[|answers[i].entries| - 1].key), exclusive := true)
    decreases i
  {
    var next := After(r, answers[0].entries[|answers[0].entries| - 1].key);
    if i == 0 {
      CrossedBoundsAskNothing(next, answers[1..]);
    } else {
      AsksForTheRest(next, answers[1..], i - 1);
    }
  }

  /** The guard never cuts a scan short: no key of the range lies past its end. */
  lemma ContinuationIsNotGuarded(store: seq<Pair>, r: Range, p: Pair)
    requires Sorted(store, false) && p in InRange(store, r)
    ensures !Guarded(After(r, p.key))
  {
    InRangeIsTheRange(store, r);
    if Guarded(After(r, p.key)) {
      BeforeIsStrict(r.reverse, r.end.value, p.key);
      assert false;
    }
  }

  /** Against an honest broker over a fixed store, what has been yielded is always a first
      part of the range in scan order; a scan that completes has yielded all of it, and it
      completes after at most as many requests as the range has pairs, or one. */
  lemma {:induction false} ScansTheRange(store: seq<Pair>, r: Range, answers: seq<Page>)
    requires Sorted(store, false) && HonestBroker(store, r, answers)
    ensures var s := ScanAll(r, answers);
      && s.yielded <= InRange(store, r)
      && s.outcome != Truncated
      && (s.outcome == Complete ==> s.yielded == InRange(store, r))
      && |s.asked| <= |InRange(store, r)| + 1
      && (|answers| > |InRange(store, r)| ==> s.outcome == Complete)
    decreases |answers|
  {
    var range := InRange(store, r);
    if Guarded(r) {
      GuardedIsEmpty(store, r);
    } else if answers != [] && answers[0].hasMore {
      var entries := answers[0].entries;
      var n := |entries|;
      var next := After(r, entries[n - 1].key);
      assert entries[n - 1] == range[n - 1];
      PastThePage(store, r, n);
      ScansTheRange(store, next, answers[1..]);
      assert range == range[..n] + range[n..] && entries == range[..n];
      hide InRange, After, Guarded, HonestBroker;
    }
  }

  /** Whatever the broker answers, the scan yields the pages it was sent one after the other;
      it fails exactly if the last page it used was empty and announced more. */
  lemma {:induction false} ScanYieldsThePages(r: Range, answers: seq<Page>)
    ensures var s := ScanAll(r, answers);
      exists n :: 0 <= n <= |answers| && s.yielded == Joined(answers[..n]) && UsedUpTo(s.outcome, answers, n)
    decreases |answers|
  {
    if Guarded(r) || answers == [] {
      assert answers[..0] == [] && UsedUpTo(ScanAll(r, answers).outcome, answers, 0);
    } else {
      var page := answers[0];
      assert answers[..1] == [page] && Joined([page]) == page.entries + Joined([]) == page.entries;
      if page.hasMore && page.entries != [] {
        var next := After(r, page.entries[|page.entries| - 1].key);
        ScanYieldsThePages(next, answers[1..]);
        var s := ScanAll(next, answers[1..]);
        var n :| 0 <= n <= |answers[1..]| && s.yielded == Joined(answers[1..][..n])
          && UsedUpTo(s.outcome, answers[1..], n);
        assert answers[..n + 1] == [page] + answers[1..][..n];
        assert Joined(answers[..n + 1]) == page.entries + Joined(answers[1..][..n]);
        assert UsedUpTo(ScanAll(r, answers).outcome, answers, n + 1);
      } else {
        assert UsedUpTo(ScanAll(r, answers).outcome, answers, 1);
      }
    }
  }

  function Joined(pages: seq<Page>): seq<Pair> {
    if pages == [] then [] else pages[0].entries + Joined(pages[1..])
  }

  predicate UsedUpTo(outcome: Outcome, answers: seq<Page>, n: nat)
    requires n <= |answers|
  {
    && (outcome == Truncated <==> n > 0 && answers[n - 1] == Page([], true))
    && (outcome == Unanswered ==> n == |answers|)
  }
}
