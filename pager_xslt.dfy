/**
 * `TEIPager` as in xslt_magic.py. Compared with src/tei_tools.py: page `div`s
 * carry `class="page"` and `n` only, there is no column-break context check,
 * the handler re-raises the builder's own error, and column `div`s are opened
 * and closed through the pager's own `startElementNS`/`endElementNS`, so
 * they are tracked on `tag_stack` and reopened after a later page break.
 */
module XsltPager {
  import opened Wrappers
  import opened Text
  import opened Common
  import opened Sax
  import opened Replay
  import Pager

  const Div: NsName := Pager.Div
  const PlainDiv: Entry := Entry(Div, "div", [])
  const ColumnDiv: Entry := Entry(Div, "div", Pager.ColumnAttrs)

  function PageDivAttrs(page: nat): Attrs {
    PlainAttrs([("class", "page"), ("n", NatToString(page))])
  }

  function NextPageDiv(page: nat): seq<Event> {
    [Close(Div, "div"), Open(Div, "div", PageDivAttrs(page))]
  }

  function PageBreakEvents(ts: seq<Entry>, page: nat): seq<Event> {
    CloseAll(ts) + NextPageDiv(page) + OpenAll(ts)
  }

  function BodyStartEvents(page: nat): seq<Event> {
    [Open(Div, "div", []), Open(Div, "div", PageDivAttrs(page))]
  }

  /** A column break: the column `div`s are pushed and popped like ordinary elements. */
  function ColumnStep(ts: seq<Entry>, page: nat, line: nat, n: Option<string>): Pager.Step {
    if n == Some("1") then
      Pager.Emit([Open(Div, "div", []), Open(Div, "div", Pager.ColumnAttrs)], ts + [PlainDiv, ColumnDiv], page, line)
    else if n == Some("") then
      if |ts| < 2 then Pager.Refused(EmptyTagStack)
      else Pager.Emit([Close(Div, "div"), Close(Div, "div")], ts[..|ts| - 2], page, line)
    else
      if |ts| == 0 then Pager.Refused(EmptyTagStack)
      else Pager.Emit([Close(Div, "div"), Open(Div, "div", Pager.ColumnAttrs)], ts[..|ts| - 1] + [ColumnDiv], page, line)
  }

  function StartStep(ts: seq<Entry>, page: nat, line: nat, name: NsName, qname: string, attrs: Attrs): Pager.Step {
    if TagEq(qname, "pb") then
      if Get(attrs, Plain("type")) == Some("pdf") then Pager.Emit([], ts, page, line)
      else Pager.Emit(PageBreakEvents(ts, page + 1), ts, page + 1, 1)
    else if TagEq(qname, "cb") then ColumnStep(ts, page, line, Get(attrs, Plain("n")))
    else if TagEq(qname, "body") then Pager.Emit(BodyStartEvents(page), ts, page, line)
    else Pager.Emit([Open(name, qname, attrs)], ts + [Entry(name, qname, attrs)], page, if TagEq(qname, "br") then line + 1 else line)
  }

  function StepOn(ts: seq<Entry>, page: nat, line: nat, ev: Event): Pager.Step {
    match ev
    case Open(n, q, a) => StartStep(ts, page, line, n, q, a)
    case Close(n, q) => Pager.EndStep(ts, page, line, n, q)
    case Text(c) => Pager.Emit([Text(c)], ts, page, line)
  }

  function XsltStepper(): Pager.Stepper {
    (ts: seq<Entry>, page: nat, line: nat, ev: Event) => StepOn(ts, page, line, ev)
  }

  /** `div` is an ordinary element: not a marker, not `body`, not `br`. */
  lemma DivIsOrdinary()
    ensures !TagEq("div", "pb") && !TagEq("div", "cb") && !TagEq("div", "body") && !TagEq("div", "br")
  {
    assert "div"[0] != ':';
  }

  /** Turning the page is accepted exactly when a `div` is innermost, and leaves the same names open. */
  lemma NextPageDivKeepsOpen(open: seq<NsName>, page: nat)
    ensures Feed(open, NextPageDiv(page)) == if Accepts(open, Div) then Some(open) else None
  {
    var next := NextPageDiv(page);
    assert next == [next[0]] + [next[1]];
    FeedConcat(open, [next[0]], [next[1]]);
    FeedSingle(open, next[0]);
    if Accepts(open, Div) {
      FeedSingle(open[..|open| - 1], next[1]);
      assert open[..|open| - 1] + [Div] == open;
    }
  }

  /** As in the other revisions, a page break keeps the builder's open elements exactly when it is accepted. */
  lemma PageBreakKeepsOpen(open: seq<NsName>, ts: seq<Entry>, page: nat)
    ensures Feed(open, PageBreakEvents(ts, page)) == if IsSuffix([Div] + Names(ts), open) then Some(open) else None
  {
    FeedReplay(open, ts, NextPageDiv(page));
    SuffixCons(Div, Names(ts), open);
    if IsSuffix(Names(ts), open) {
      var o := open[..|open| - |ts|];
      NextPageDivKeepsOpen(o, page);
      assert o + Names(ts) == open;
    }
  }

  /**
   * Column `div`s opened by `<cb n="1"/>` are tracked, so the next page break
   * closes them first and reopens them last, with the column class.
   */
  lemma ColumnSurvivesPageBreak(ts: seq<Entry>, page: nat, line: nat, next: nat)
    ensures ColumnStep(ts, page, line, Some("1")).tagStack == ts + [PlainDiv, ColumnDiv]
    ensures var evs := PageBreakEvents(ts + [PlainDiv, ColumnDiv], next);
      && |evs| == 2 * |ts| + 6
      && evs[..2] == [Close(Div, "div"), Close(Div, "div")]
      && evs[|evs| - 2..] == [Open(Div, "div", []), Open(Div, "div", Pager.ColumnAttrs)]
  {
    var ts' := ts + [PlainDiv, ColumnDiv];
    CloseAllOrder(ts');
    OpenAllOrder(ts');
    var evs := PageBreakEvents(ts', next);
    assert evs == CloseAll(ts') + NextPageDiv(next) + OpenAll(ts');
    assert evs[0] == CloseAll(ts')[0];
    assert evs[1] == CloseAll(ts')[1];
    assert evs[|evs| - 1] == OpenAll(ts')[|ts'| - 1];
    assert evs[|evs| - 2] == OpenAll(ts')[|ts'| - 2];
  }

  /** Over a pass that completes, `page` counts the page breaks and `line` follows the same rule as in src/tei_tools.py. */
  lemma {:induction false} RunCountsPages(st: Pager.PagerState, input: seq<Event>)
    requires Pager.Run(XsltStepper(), st, input).Some?
    ensures Pager.Run(XsltStepper(), st, input).value.page == st.page + Pager.PageBreaks(input)
    ensures Pager.Run(XsltStepper(), st, input).value.line == Pager.LineAfter(st.line, input)
    decreases |input|
  {
    if |input| > 0 {
      var s := StepOn(st.tagStack, st.page, st.line, input[0]);
      var snap := Snapshot(Feed(st.snap.open, s.evs).value, st.snap.out + s.evs, Track(st.snap.tags, s.evs));
      RunCountsPages(Pager.PagerState(snap, s.tagStack, s.page, s.line), input[1..]);
      StepCounts(st.tagStack, st.page, st.line, input);
    }
  }

  /** One accepted step moves the page and line counters as the first event of `input` says. */
  lemma StepCounts(ts: seq<Entry>, page: nat, line: nat, input: seq<Event>)
    requires |input| > 0 && StepOn(ts, page, line, input[0]).Emit?
    ensures var s := StepOn(ts, page, line, input[0]);
      s.page + Pager.PageBreaks(input[1..]) == page + Pager.PageBreaks(input)
      && Pager.LineAfter(s.line, input[1..]) == Pager.LineAfter(line, input)
  {
  }

  /** This revision's page `div`s carry class `page`. */
  const PageClass := "page"

  /** One event of a page body keeps the builder and the pager in step, as in src/tei_tools.py. */
  lemma BodyStep(outer: seq<NsName>, st: Pager.PagerState, ev: Event)
    requires Pager.InPage(PageClass, outer, st)
    requires Pager.NestOne(Names(st.tagStack), ev).Some? && !IsDivOfClass(PageClass, ev)
    ensures Pager.StepKeeps(PageClass, outer, st, StepOn(st.tagStack, st.page, st.line, ev),
                            Pager.NestOne(Names(st.tagStack), ev).value)
  {
    match ev {
      case Open(n, q, a) =>
        if TagEq(q, "pb") {
          PageTurnStep(outer, st, n, q, a);
        } else {
          OrdinaryOpenStep(outer, st, n, q, a);
        }
      case Close(n, q) => OrdinaryCloseStep(outer, st, n, q);
      case Text(_) => FeedSingle(st.snap.open, ev);
    }
  }

  lemma PageTurnStep(outer: seq<NsName>, st: Pager.PagerState, n: NsName, q: string, a: Attrs)
    requires Pager.InPage(PageClass, outer, st) && TagEq(q, "pb")
    ensures Pager.StepKeeps(PageClass, outer, st, StartStep(st.tagStack, st.page, st.line, n, q, a), Names(st.tagStack))
  {
    var ts, open := st.tagStack, st.snap.open;
    if Get(a, Plain("type")) != Some("pdf") {
      PageBreakKeepsOpen(open, ts, st.page + 1);
      assert open[|open| - |[Div] + Names(ts)|..] == [Div] + Names(ts);
      PageBreakCounts(ts, st.page + 1);
    }
  }

  lemma OrdinaryOpenStep(outer: seq<NsName>, st: Pager.PagerState, n: NsName, q: string, a: Attrs)
    requires Pager.InPage(PageClass, outer, st)
    requires !TagEq(q, "pb") && !TagEq(q, "cb") && !TagEq(q, "body") && !IsDivOfClass(PageClass, Open(n, q, a))
    ensures Pager.StepKeeps(PageClass, outer, st, StartStep(st.tagStack, st.page, st.line, n, q, a), Names(st.tagStack) + [n])
  {
    var ts, open := st.tagStack, st.snap.open;
    FeedSingle(open, Open(n, q, a));
    assert Names(ts + [Entry(n, q, a)]) == Names(ts) + [n];
    assert open + [n] == outer + Names(ts + [Entry(n, q, a)]);
  }

  lemma OrdinaryCloseStep(outer: seq<NsName>, st: Pager.PagerState, n: NsName, q: string)
    requires Pager.InPage(PageClass, outer, st)
    requires Pager.NestOne(Names(st.tagStack), Close(n, q)).Some?
    ensures Pager.StepKeeps(PageClass, outer, st, Pager.EndStep(st.tagStack, st.page, st.line, n, q),
                            Pager.NestOne(Names(st.tagStack), Close(n, q)).value)
  {
    var ts, open := st.tagStack, st.snap.open;
    if !TagEq(q, "pb") {
      FeedSingle(open, Close(n, q));
      assert Names(ts[..|ts| - 1]) == Names(ts)[..|ts| - 1];
      assert open[..|open| - 1] == outer + Names(ts)[..|ts| - 1];
    }
  }

  /** A page break opens exactly one page `div`. */
  lemma PageBreakCounts(ts: seq<Entry>, page: nat)
    requires NoneOfClass(PageClass, ts)
    ensures DivsOfClass(PageClass, PageBreakEvents(ts, page)) == 1
  {
    var next := NextPageDiv(page);
    ReplayOpensNoDivOfClass(PageClass, ts);
    DivsOfClassConcat(PageClass, CloseAll(ts), next);
    DivsOfClassConcat(PageClass, CloseAll(ts) + next, OpenAll(ts));
    var attrs := PageDivAttrs(page);
    assert attrs[0] == (Plain("class"), PageClass);
    assert IsDivOfClass(PageClass, next[1]);
    assert next[1..] == [next[1]];
    assert next[1..][1..] == [];
    assert DivsOfClass(PageClass, next) == DivsOfClass(PageClass, [next[1]]) == 1;
  }

  /** Over a page body the pass completes, tracking its nesting, and opens a page `div` per page turned. */
  lemma {:induction false} BodyRuns(outer: seq<NsName>, st: Pager.PagerState, w: seq<Event>)
    requires Pager.InPage(PageClass, outer, st)
    requires Pager.Nest(Names(st.tagStack), w).Some? && DivsOfClass(PageClass, w) == 0
    ensures var r := Pager.Run(XsltStepper(), st, w);
      && r.Some? && r.value.snap.open == outer + Names(r.value.tagStack)
      && Names(r.value.tagStack) == Pager.Nest(Names(st.tagStack), w).value
      && st.page <= r.value.page
      && DivsOfClass(PageClass, r.value.snap.out) == DivsOfClass(PageClass, st.snap.out) + (r.value.page - st.page)
    decreases |w|
  {
    if |w| > 0 {
      assert w == [w[0]] + w[1..];
      DivsOfClassConcat(PageClass, [w[0]], w[1..]);
      BodyStep(outer, st, w[0]);
      var s := StepOn(st.tagStack, st.page, st.line, w[0]);
      var snap := Snapshot(Feed(st.snap.open, s.evs).value, st.snap.out + s.evs, Track(st.snap.tags, s.evs));
      DivsOfClassConcat(PageClass, st.snap.out, s.evs);
      BodyRuns(outer, Pager.PagerState(snap, s.tagStack, s.page, s.line), w[1..]);
    }
  }

  /**
   * A proper document paginates: the pass completes with nothing open and
   * nothing tracked, `page` counts the page breaks, and the output opens one
   * page `div` for the first page and one per page break.
   */
  lemma PaginatesDocument(input: seq<Event>)
    requires Pager.Document(input) && DivsOfClass(PageClass, input) == 0
    ensures var r := Pager.Run(XsltStepper(), Pager.Initial, input);
      && r.Some? && r.value.snap.open == [] && r.value.tagStack == []
      && r.value.page == Pager.PageBreaks(input)
      && DivsOfClass(PageClass, r.value.snap.out) == Pager.PageBreaks(input) + 1
  {
    var step := XsltStepper();
    var w := input[1..|input| - 1];
    var last := input[|input| - 1];
    assert input == [input[0]] + (w + [last]);
    DivsOfClassConcat(PageClass, [input[0]], w + [last]);
    DivsOfClassConcat(PageClass, w, [last]);
    BodyOpens(input[0], w + [last]);
    BodyRuns([Div, Div], FirstPage(), w);
    Pager.RunConcat(step, FirstPage(), w, [last]);
    BodyCloses(Pager.Run(step, FirstPage(), w).value, last);
    RunCountsPages(Pager.Initial, input);
  }

  /** The pager's state once `<body>` has opened the wrapper and the first page `div`. */
  function FirstPage(): Pager.PagerState {
    var body := BodyStartEvents(0);
    Pager.PagerState(Snapshot([Div, Div], body, Track([], body)), [], 0, 1)
  }

  lemma BodyOpens(ev: Event, rest: seq<Event>)
    requires ev.Open? && TagEq(ev.qname, "body")
    ensures Pager.Run(XsltStepper(), Pager.Initial, [ev] + rest) == Pager.Run(XsltStepper(), FirstPage(), rest)
    ensures DivsOfClass(PageClass, FirstPage().snap.out) == 1
  {
    BodyIsNoMarker(ev.qname);
    var body := BodyStartEvents(0);
    assert XsltStepper()([], 0, 1, ev) == Pager.Emit(body, [], 0, 1);
    assert Pager.Initial.snap.out + body == body;
    FeedConcat([], [body[0]], [body[1]]);
    assert body == [body[0]] + [body[1]];
    FeedSingle([], body[0]);
    FeedSingle([Div], body[1]);
    var none: seq<NsName> := [];
    assert none + [Div] == [Div] && [Div] + [Div] == [Div, Div];
    assert Feed([], body) == Some([Div, Div]);
    assert ([ev] + rest)[1..] == rest;
    var attrs := PageDivAttrs(0);
    assert attrs[0] == (Plain("class"), PageClass);
    assert IsDivOfClass(PageClass, body[1]);
    assert body[1..] == [body[1]];
    assert DivsOfClass(PageClass, body) == DivsOfClass(PageClass, [body[1]]) == 1;
  }

  lemma BodyCloses(st: Pager.PagerState, ev: Event)
    requires ev.Close? && TagEq(ev.qname, "body")
    requires st.snap.open == [Div, Div] && st.tagStack == []
    ensures var r := Pager.Run(XsltStepper(), st, [ev]);
      && r.Some? && r.value.snap.open == [] && r.value.tagStack == [] && r.value.page == st.page
      && DivsOfClass(PageClass, r.value.snap.out) == DivsOfClass(PageClass, st.snap.out)
  {
    var end := Pager.BodyEndEvents;
    FeedConcat([Div, Div], [end[0]], [end[1]]);
    assert end == [end[0]] + [end[1]];
    FeedSingle([Div, Div], end[0]);
    FeedSingle([Div], end[1]);
    assert Feed([Div, Div], end) == Some([]);
    DivsOfClassConcat(PageClass, st.snap.out, end);
    assert end[1..][1..] == [];
    assert DivsOfClass(PageClass, end) == DivsOfClass(PageClass, end[1..]) == 0;
    assert XsltStepper()([], st.page, st.line, ev) == Pager.Emit(end, [], st.page, st.line);
    assert [ev][1..] == [];
  }

  class TEIPager {
    /** The inherited `AugmentedElementTreeContentHandler` part. */
    const handler: AugmentedHandler
    var tagStack: seq<Entry>
    var page: nat
    var line: nat

    ghost predicate Valid()
      reads this, handler, handler.sink
    {
      handler.Valid() && handler.reraiseOriginal
      && EntriesAvoid(tagStack, Pager.IsMarker) && Avoids(handler.sink.out, Pager.IsMarker)
    }

    ghost function State(): Pager.PagerState
      reads this, handler, handler.sink
    {
      Pager.PagerState(handler.Snap(), tagStack, page, line)
    }

    ghost predicate Did(s: Pager.Step, snap0: Snapshot)
      reads this, handler, handler.sink
    {
      s.Emit? && Moved(snap0, s.evs, handler.Snap()) && tagStack == s.tagStack && page == s.page && line == s.line
    }

    constructor ()
      ensures Valid() && fresh(handler) && fresh(handler.sink)
      ensures State() == Pager.Initial
    {
      handler := new AugmentedHandler(true);
      tagStack, page, line := [], 0, 1;
    }

    method StartElementNS(name: NsName, qname: string, attrs: Attrs) returns (err: Option<Failure>)
      requires Valid()
      modifies this, handler, handler.sink
      decreases if TagEq(qname, "cb") then 2 else 0
      ensures Valid()
      ensures var s := StartStep(old(tagStack), old(page), old(line), name, qname, attrs);
        && (s.Refused? ==> err.Some?)
        && (s.Emit? ==> (err.None? <==> Feed(old(handler.sink.open), s.evs).Some?))
        && (err.None? ==> Did(s, old(handler.Snap())))
    {
      if TagEq(qname, "pb") {
        if Get(attrs, Plain("type")) != Some("pdf") {
          err := HandlePageBreak();
        } else {
          err := None;
          assert handler.Snap().out == old(handler.Snap()).out + [];
        }
      } else if TagEq(qname, "cb") {
        err := HandleColumnBreak(Get(attrs, Plain("n")));
      } else if TagEq(qname, "body") {
        StartBody();
        err := None;
      } else {
        StartOrdinary(name, qname, attrs);
        err := None;
      }
    }

    /** `<body>` opens the outer `div` and the first page `div`. */
    method StartBody()
      requires Valid()
      modifies handler, handler.sink
      ensures Valid()
      ensures Moved(old(handler.Snap()), BodyStartEvents(page), handler.Snap())
    {
      ghost var snap0 := handler.Snap();
      handler.StartElementNS(Div, "div", []);
      Pager.AvoidsSnoc(snap0.out, Open(Div, "div", []));
      ghost var snap1 := handler.Snap();
      handler.StartElementNS(Div, "div", PageDivAttrs(page));
      Pager.AvoidsSnoc(snap1.out, Open(Div, "div", PageDivAttrs(page)));
      MovedChain(snap0, [Open(Div, "div", [])], snap1, [Open(Div, "div", PageDivAttrs(page))], handler.Snap());
    }

    /** Any other element is tracked and passed on; `br` starts a new line. */
    method StartOrdinary(name: NsName, qname: string, attrs: Attrs)
      requires Valid() && !Pager.IsMarker(qname)
      modifies this, handler, handler.sink
      ensures Valid()
      ensures tagStack == old(tagStack) + [Entry(name, qname, attrs)] && page == old(page)
      ensures line == if TagEq(qname, "br") then old(line) + 1 else old(line)
      ensures Moved(old(handler.Snap()), [Open(name, qname, attrs)], handler.Snap())
    {
      if TagEq(qname, "br") {
        line := line + 1;
      }
      tagStack := tagStack + [Entry(name, qname, attrs)];
      handler.StartElementNS(name, qname, attrs);
      Pager.AvoidsSnoc(old(handler.sink.out), Open(name, qname, attrs));
    }

    /** `handlePageBreak`: as in src/tei_tools.py, with a `page`/`n` page `div` and no recto/verso. */
    method HandlePageBreak() returns (err: Option<Failure>)
      requires Valid()
      modifies this, handler, handler.sink
      ensures Valid()
      ensures tagStack == old(tagStack) && page == old(page) + 1 && line == 1
      ensures var evs := PageBreakEvents(tagStack, page);
        && (err.None? <==> Feed(old(handler.sink.open), evs).Some?)
        && (err.None? ==> Moved(old(handler.Snap()), evs, handler.Snap()))
    {
      line := 1;
      page := page + 1;
      ghost var snap0 := handler.Snap();
      err := CloseAndTurn();
      if err.Some? {
        FeedFailsBefore(snap0.open, CloseAll(tagStack) + NextPageDiv(page), OpenAll(tagStack));
        return;
      }
      ghost var snap1 := handler.Snap();
      ReopenAllTags();
      MovedChain(snap0, CloseAll(tagStack) + NextPageDiv(page), snap1, OpenAll(tagStack), handler.Snap());
    }

    /** The first two parts of a page break: every tracked element closed, then the page turned. */
    method CloseAndTurn() returns (err: Option<Failure>)
      requires Valid()
      modifies handler, handler.sink
      ensures Valid()
      ensures var evs := CloseAll(tagStack) + NextPageDiv(page);
        && (err.None? <==> Feed(old(handler.sink.open), evs).Some?)
        && (err.None? ==> Moved(old(handler.Snap()), evs, handler.Snap()))
    {
      ghost var snap0 := handler.Snap();
      ghost var closes, middle := CloseAll(tagStack), NextPageDiv(page);
      err := CloseAllTags();
      if err.Some? {
        FeedFailsBefore(snap0.open, closes, middle);
        return;
      }
      ghost var snap1 := handler.Snap();
      err := TurnPage();
      if err.Some? {
        FeedFailsAfter(snap0.open, closes, snap1.open, middle);
        return;
      }
      MovedChain(snap0, closes, snap1, middle, handler.Snap());
    }

    /** The middle of a page break: close the page `div`, open the next one. */
    method TurnPage() returns (err: Option<Failure>)
      requires Valid()
      modifies handler, handler.sink
      ensures Valid()
      ensures err.None? <==> Feed(old(handler.sink.open), NextPageDiv(page)).Some?
      ensures err.None? ==> Moved(old(handler.Snap()), NextPageDiv(page), handler.Snap())
    {
      var snap0 := handler.Snap();
      var evs := NextPageDiv(page);
      err := handler.EndElementNS(Div, "div");
      FeedSingle(snap0.open, evs[0]);
      if err.Some? {
        FeedFailsBefore(snap0.open, [evs[0]], [evs[1]]);
        assert [evs[0]] + [evs[1]] == evs;
        return;
      }
      Pager.AvoidsSnoc(snap0.out, evs[0]);
      var snap1 := handler.Snap();
      handler.StartElementNS(Div, "div", PageDivAttrs(page));
      Pager.AvoidsSnoc(snap1.out, evs[1]);
      MovedChain(snap0, [evs[0]], snap1, [evs[1]], handler.Snap());
      assert [evs[0]] + [evs[1]] == evs;
    }

    /** `handleColumnBreak`: goes through the pager's own open and close, so `tag_stack` follows. */
    method HandleColumnBreak(n: Option<string>) returns (err: Option<Failure>)
      requires Valid()
      modifies this, handler, handler.sink
      decreases 1
      ensures Valid()
      ensures var s := ColumnStep(old(tagStack), old(page), old(line), n);
        && (s.Refused? ==> err.Some?)
        && (s.Emit? ==> (err.None? <==> Feed(old(handler.sink.open), s.evs).Some?))
        && (err.None? ==> Did(s, old(handler.Snap())))
    {
      DivIsOrdinary();
      var snap0 := handler.Snap();
      var s := ColumnStep(tagStack, page, line, n);
      if n == Some("1") {
        err := StartElementNS(Div, "div", []);
        var snap1 := handler.Snap();
        err := StartElementNS(Div, "div", Pager.ColumnAttrs);
        MovedChain(snap0, [s.evs[0]], snap1, [s.evs[1]], handler.Snap());
        assert s.evs == [s.evs[0]] + [s.evs[1]];
        assert old(tagStack) + [PlainDiv] + [ColumnDiv] == old(tagStack) + [PlainDiv, ColumnDiv];
      } else {
        err := EndElementNS(Div, "div");
        if err.Some? {
          if s.Emit? {
            FeedSingle(snap0.open, s.evs[0]);
            FeedFailsBefore(snap0.open, [s.evs[0]], [s.evs[1]]);
            assert s.evs == [s.evs[0]] + [s.evs[1]];
          }
          return;
        }
        var snap1 := handler.Snap();
        var ts1 := tagStack;
        if n == Some("") {
          err := EndElementNS(Div, "div");
        } else {
          err := StartElementNS(Div, "div", Pager.ColumnAttrs);
        }
        if s.Emit? {
          assert s.evs == [s.evs[0]] + [s.evs[1]];
          if err.Some? {
            FeedSingle(snap1.open, s.evs[1]);
            FeedFailsAfter(snap0.open, [s.evs[0]], snap1.open, [s.evs[1]]);
          } else {
            MovedChain(snap0, [s.evs[0]], snap1, [s.evs[1]], handler.Snap());
            if n == Some("") {
              assert ts1[..|ts1| - 1] == old(tagStack)[..|old(tagStack)| - 2];
            }
          }
        }
      }
    }

    method EndElementNS(name: NsName, qname: string) returns (err: Option<Failure>)
      requires Valid()
      modifies this, handler, handler.sink
      decreases 0
      ensures Valid()
      ensures var s := Pager.EndStep(old(tagStack), old(page), old(line), name, qname);
        && (s.Refused? ==> err == Some(s.why) && State() == old(State()))
        && (s.Emit? ==> (err.None? <==> Feed(old(handler.sink.open), s.evs).Some?))
        && (err.None? ==> Did(s, old(handler.Snap())))
      ensures !TagEq(qname, "body") && !Pager.IsMarker(qname) && old(tagStack) != [] && err.Some? ==>
        err == Some(UnexpectedClose(name))
    {
      if TagEq(qname, "body") {
        var snap0 := handler.Snap();
        err := handler.EndElementNS(Div, "div");
        if err.Some? {
          FeedSingle(snap0.open, Close(Div, "div"));
          FeedFailsBefore(snap0.open, [Close(Div, "div")], [Close(Div, "div")]);
          return;
        }
        Pager.AvoidsSnoc(snap0.out, Close(Div, "div"));
        var snap1 := handler.Snap();
        err := handler.EndElementNS(Div, "div");
        if err.Some? {
          FeedSingle(snap1.open, Close(Div, "div"));
          FeedFailsAfter(snap0.open, [Close(Div, "div")], snap1.open, [Close(Div, "div")]);
          return;
        }
        Pager.AvoidsSnoc(snap1.out, Close(Div, "div"));
        MovedChain(snap0, [Close(Div, "div")], snap1, [Close(Div, "div")], handler.Snap());
      } else if !TagEq(qname, "pb") && !TagEq(qname, "cb") {
        if |tagStack| == 0 {
          return Some(EmptyTagStack);
        }
        tagStack := tagStack[..|tagStack| - 1];
        err := handler.EndElementNS(name, qname);
        Pager.AvoidsSnoc(old(handler.sink.out), Close(name, qname));
        if err.Some? {
          FeedSingle(old(handler.sink.open), Close(name, qname));
        }
      } else {
        err := None;
        assert handler.Snap().out == old(handler.Snap()).out + [];
      }
    }

    method Characters(content: string)
      requires Valid()
      modifies handler, handler.sink
      ensures Valid()
      ensures Moved(old(handler.Snap()), [Text(content)], handler.Snap())
    {
      handler.Characters(content);
      Pager.AvoidsSnoc(old(handler.sink.out), Text(content));
    }

    /** One parser callback: the pass goes on exactly where `Run` goes on, and stops exactly where it stops. */
    method HandleEvent(ev: Event, ghost rest: seq<Event>) returns (err: Option<Failure>)
      requires Valid()
      modifies this, handler, handler.sink
      ensures Valid()
      ensures err.None? ==> Pager.Run(XsltStepper(), old(State()), [ev] + rest) == Pager.Run(XsltStepper(), State(), rest)
      ensures err.Some? ==> Pager.Run(XsltStepper(), old(State()), [ev] + rest).None?
    {
      assert ([ev] + rest)[0] == ev && ([ev] + rest)[1..] == rest;
      match ev {
        case Open(n, q, a) => err := StartElementNS(n, q, a);
        case Close(n, q) => err := EndElementNS(n, q);
        case Text(c) => Characters(c); err := None;
      }
    }

    method CloseAllTags() returns (err: Option<Failure>)
      requires Valid()
      modifies handler, handler.sink
      ensures Valid()
      ensures err.None? <==> IsSuffix(Names(tagStack), old(handler.sink.open))
      ensures err.None? <==> Feed(old(handler.sink.open), CloseAll(tagStack)).Some?
      ensures err.None? ==> Moved(old(handler.Snap()), CloseAll(tagStack), handler.Snap())
    {
      var snap0 := handler.Snap();
      FeedCloseAll(snap0.open, tagStack);
      var i := |tagStack|;
      assert tagStack[i..] == [];
      while i > 0
        invariant 0 <= i <= |tagStack|
        invariant handler.Valid() && Avoids(handler.sink.out, Pager.IsMarker)
        invariant Moved(snap0, CloseAll(tagStack[i..]), handler.Snap())
      {
        var e := tagStack[i - 1];
        var before := handler.Snap();
        err := handler.EndElementNS(e.name, e.qname);
        Pager.AvoidsSnoc(before.out, Close(e.name, e.qname));
        assert tagStack[i - 1..][1..] == tagStack[i..];
        if err.Some? {
          FeedSingle(before.open, Close(e.name, e.qname));
          FeedFailsAfter(snap0.open, CloseAll(tagStack[i..]), before.open, [Close(e.name, e.qname)]);
          CloseAllAppend(tagStack[..i - 1], tagStack[i - 1..]);
          assert tagStack[..i - 1] + tagStack[i - 1..] == tagStack;
          FeedFailsBefore(snap0.open, CloseAll(tagStack[i - 1..]), CloseAll(tagStack[..i - 1]));
          return;
        }
        MovedChain(snap0, CloseAll(tagStack[i..]), before, [Close(e.name, e.qname)], handler.Snap());
        i := i - 1;
      }
      assert tagStack[0..] == tagStack;
      err := None;
    }

    method ReopenAllTags()
      requires Valid()
      modifies handler, handler.sink
      ensures Valid()
      ensures Moved(old(handler.Snap()), OpenAll(tagStack), handler.Snap())
    {
      var snap0 := handler.Snap();
      assert tagStack[..0] == [];
      for i := 0 to |tagStack|
        invariant handler.Valid() && Avoids(handler.sink.out, Pager.IsMarker)
        invariant Moved(snap0, OpenAll(tagStack[..i]), handler.Snap())
      {
        var e := tagStack[i];
        var before := handler.Snap();
        handler.StartElementNS(e.name, e.qname, e.attrs);
        Pager.AvoidsSnoc(before.out, Open(e.name, e.qname, e.attrs));
        assert tagStack[..i + 1][..i] == tagStack[..i];
        MovedChain(snap0, OpenAll(tagStack[..i]), before, [Open(e.name, e.qname, e.attrs)], handler.Snap());
      }
      assert tagStack[..|tagStack|] == tagStack;
    }
  }

  /** `paginate`: the whole stream through a fresh pager; the trace is well nested and marker-free. */
  method Paginate(input: seq<Event>) returns (out: seq<Event>, err: Option<Failure>)
    ensures Avoids(out, Pager.IsMarker)
    ensures Feed([], out).Some?
    ensures err.None? <==> Pager.Run(XsltStepper(), Pager.Initial, input).Some?
    ensures err.None? ==> out == Pager.Run(XsltStepper(), Pager.Initial, input).value.snap.out
  {
    var pager := new TEIPager();
    var i := 0;
    while i < |input|
      invariant 0 <= i <= |input|
      invariant fresh(pager.handler) && fresh(pager.handler.sink) && pager.Valid()
      invariant Pager.Run(XsltStepper(), Pager.Initial, input) == Pager.Run(XsltStepper(), pager.State(), input[i..])
    {
      assert input[i..] == [input[i]] + input[i + 1..];
      err := pager.HandleEvent(input[i], input[i + 1..]);
      if err.Some? {
        out := pager.handler.sink.out;
        return;
      }
      i := i + 1;
    }
    out := pager.handler.sink.out;
    err := None;
  }
}
