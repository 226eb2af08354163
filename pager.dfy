/**
 * `TEIPager` as in src/tei_tools.py and xml_to_html.py: the two revisions
 * differ only in the context check at a column break (tei_tools.py refuses a
 * `<cb/>` unless the innermost tracked element is a `div`), which
 * `checkColumns` selects.
 *
 * Page breaks (`<pb/>`) become page `div`s: every tracked element is closed,
 * the page `div` is closed and a new one opened, and the tracked elements are
 * reopened with their attributes. Column breaks (`<cb/>`) become column
 * `div`s; `<body>` becomes a wrapper `div` around the first page `div`.
 */
module Pager {
  import opened Wrappers
  import opened Text
  import opened Common
  import opened Sax
  import opened Replay

  const Div: NsName := Plain("div")
  const ColumnAttrs: Attrs := PlainAttrs([("class", "col-xs-6")])

  /** The attributes `startNewPageDiv` gives a page `div`. */
  function PageDivAttrs(textName: string, pageNo: string, rectoVerso: string): Attrs {
    PlainAttrs([("class", "printed-text-page " + textName), ("data-n", pageNo), ("data-rvn", rectoVerso)])
  }

  /** The markers the pager consumes: `<pb/>` and `<cb/>`, in any namespace. */
  predicate IsMarker(qname: string) {
    TagEq(qname, "pb") || TagEq(qname, "cb")
  }

  /** What a page break sends to the builder; `page` is the new page number. */
  function PageBreakEvents(ts: seq<Entry>, textName: string, page: nat, rectoVerso: string): seq<Event> {
    CloseAll(ts) + NextPageDiv(textName, page, rectoVerso) + OpenAll(ts)
  }

  /** Closing the current page `div` and opening the next. */
  function NextPageDiv(textName: string, page: nat, rectoVerso: string): seq<Event> {
    [Close(Div, "div"), Open(Div, "div", PageDivAttrs(textName, NatToString(page), rectoVerso))]
  }

  /** What a column break sends, by the marker's `n` attribute. */
  function ColumnBreakEvents(n: Option<string>): seq<Event> {
    if n == Some("1") then [Open(Div, "div", []), Open(Div, "div", ColumnAttrs)]
    else if n == Some("") then [Close(Div, "div"), Close(Div, "div")]
    else [Close(Div, "div"), Open(Div, "div", ColumnAttrs)]
  }

  function BodyStartEvents(textName: string, page: nat): seq<Event> {
    [Open(Div, "div", []), Open(Div, "div", PageDivAttrs(textName, NatToString(page), "0"))]
  }

  const BodyEndEvents: seq<Event> := [Close(Div, "div"), Close(Div, "div")]

  /** The error a column break raises before sending anything, if any. */
  function ColumnCheck(checkColumns: bool, ts: seq<Entry>, page: nat, line: nat): Option<Failure> {
    if !checkColumns then None
    else if |ts| == 0 then Some(EmptyTagStack)
    else if ts[|ts| - 1].qname != "div" then Some(ColumnBreakOutsideDiv(page, line))
    else None
  }

  /**
   * One input event's effect: either an error raised before anything is sent,
   * or the events sent to the builder and the pager's new counters and stack.
   */
  datatype Step =
    | Refused(why: Failure)
    | Emit(evs: seq<Event>, tagStack: seq<Entry>, page: nat, line: nat)

  function StartStep(checkColumns: bool, textName: string, ts: seq<Entry>, page: nat, line: nat,
                     name: NsName, qname: string, attrs: Attrs): Step
  {
    if TagEq(qname, "pb") then
      if Get(attrs, Plain("type")) == Some("pdf") then Emit([], ts, page, line)
      else Emit(PageBreakEvents(ts, textName, page + 1, Get(attrs, Plain("n")).GetOr("")), ts, page + 1, 1)
    else if TagEq(qname, "cb") then
      var check := ColumnCheck(checkColumns, ts, page, line);
      if check.Some? then Refused(check.value)
      else Emit(ColumnBreakEvents(Get(attrs, Plain("n"))), ts, page, line)
    else if TagEq(qname, "body") then Emit(BodyStartEvents(textName, page), ts, page, line)
    else Emit([Open(name, qname, attrs)], ts + [Entry(name, qname, attrs)], page, if TagEq(qname, "br") then line + 1 else line)
  }

  function EndStep(ts: seq<Entry>, page: nat, line: nat, name: NsName, qname: string): Step {
    if TagEq(qname, "body") then Emit(BodyEndEvents, ts, page, line)
    else if IsMarker(qname) then Emit([], ts, page, line)
    else if |ts| == 0 then Refused(EmptyTagStack)
    else Emit([Close(name, qname)], ts[..|ts| - 1], page, line)
  }

  function StepOn(checkColumns: bool, textName: string, ts: seq<Entry>, page: nat, line: nat, ev: Event): Step {
    match ev
    case Open(n, q, a) => StartStep(checkColumns, textName, ts, page, line, n, q, a)
    case Close(n, q) => EndStep(ts, page, line, n, q)
    case Text(c) => Emit([Text(c)], ts, page, line)
  }

  /** The whole pass as a function of its input: the state after `input`, or None if it aborts. */
  datatype PagerState = PagerState(snap: Snapshot, tagStack: seq<Entry>, page: nat, line: nat)

  /** A revision's per-event behaviour, given its tag stack, page and line. */
  type Stepper = (seq<Entry>, nat, nat, Event) -> Step

  function Run(step: Stepper, st: PagerState, input: seq<Event>): Option<PagerState>
    decreases |input|
  {
    if |input| == 0 then Some(st)
    else
      var s := step(st.tagStack, st.page, st.line, input[0]);
      if s.Refused? || Feed(st.snap.open, s.evs).None? then None
      else
        var snap := Snapshot(Feed(st.snap.open, s.evs).value, st.snap.out + s.evs, Track(st.snap.tags, s.evs));
        Run(step, PagerState(snap, s.tagStack, s.page, s.line), input[1..])
  }

  /** This revision's stepper. */
  function TeiStepper(checkColumns: bool, textName: string): Stepper {
    (ts: seq<Entry>, page: nat, line: nat, ev: Event) => StepOn(checkColumns, textName, ts, page, line, ev)
  }

  const Initial: PagerState := PagerState(Snapshot([], [], []), [], 0, 1)

  /** Turning the page is accepted exactly when a `div` is innermost, and leaves the same names open. */
  lemma NextPageDivKeepsOpen(open: seq<NsName>, textName: string, page: nat, rectoVerso: string)
    ensures Feed(open, NextPageDiv(textName, page, rectoVerso)) == if Accepts(open, Div) then Some(open) else None
  {
    var next := NextPageDiv(textName, page, rectoVerso);
    assert next == [next[0]] + [next[1]];
    FeedConcat(open, [next[0]], [next[1]]);
    FeedSingle(open, next[0]);
    if Accepts(open, Div) {
      FeedSingle(open[..|open| - 1], next[1]);
      assert open[..|open| - 1] + [Div] == open;
    }
  }

  /**
   * A page break is accepted exactly when the tracked elements are the
   * builder's innermost open elements and sit directly on a `div` (the page
   * `div`); it then leaves the builder's open elements as they were.
   */
  lemma PageBreakKeepsOpen(open: seq<NsName>, ts: seq<Entry>, textName: string, page: nat, rectoVerso: string)
    ensures Feed(open, PageBreakEvents(ts, textName, page, rectoVerso))
         == if IsSuffix([Div] + Names(ts), open) then Some(open) else None
  {
    FeedReplay(open, ts, NextPageDiv(textName, page, rectoVerso));
    SuffixCons(Div, Names(ts), open);
    if IsSuffix(Names(ts), open) {
      var o := open[..|open| - |ts|];
      NextPageDivKeepsOpen(o, textName, page, rectoVerso);
      assert o + Names(ts) == open;
    }
  }

  /**
   * Column breaks: `n="1"` opens two `div`s, `n=""` closes the two innermost
   * `div`s, any other value closes the innermost `div` and opens another.
   */
  lemma ColumnBreakDepth(open: seq<NsName>, n: Option<string>)
    ensures n == Some("1") ==> Feed(open, ColumnBreakEvents(n)) == Some(open + [Div, Div])
    ensures n == Some("") ==>
      Feed(open, ColumnBreakEvents(n)) == (if IsSuffix([Div, Div], open) then Some(open[..|open| - 2]) else None)
    ensures n != Some("1") && n != Some("") ==>
      Feed(open, ColumnBreakEvents(n)) == (if Accepts(open, Div) then Some(open) else None)
  {
    if n == Some("1") {
      ColumnsOpen(open);
    } else if n == Some("") {
      ColumnsClose(open);
    } else {
      ColumnNext(open, n);
    }
  }

  lemma ColumnsOpen(open: seq<NsName>)
    ensures Feed(open, ColumnBreakEvents(Some("1"))) == Some(open + [Div, Div])
  {
    var evs := ColumnBreakEvents(Some("1"));
    assert evs == [evs[0]] + [evs[1]];
    FeedConcat(open, [evs[0]], [evs[1]]);
    FeedSingle(open, evs[0]);
    FeedSingle(open + [Div], evs[1]);
    assert open + [Div] + [Div] == open + [Div, Div];
  }

  lemma ColumnsClose(open: seq<NsName>)
    ensures Feed(open, ColumnBreakEvents(Some(""))) == (if IsSuffix([Div, Div], open) then Some(open[..|open| - 2]) else None)
  {
    var evs := ColumnBreakEvents(Some(""));
    assert evs == [evs[0]] + [evs[1]];
    FeedConcat(open, [evs[0]], [evs[1]]);
    FeedSingle(open, evs[0]);
    if Accepts(open, Div) {
      var o := open[..|open| - 1];
      FeedSingle(o, evs[1]);
      if Accepts(o, Div) {
        assert o[..|o| - 1] == open[..|open| - 2];
        assert open[|open| - 2..] == [o[|o| - 1], Div];
      }
    }
  }

  lemma ColumnNext(open: seq<NsName>, n: Option<string>)
    requires n != Some("1") && n != Some("")
    ensures Feed(open, ColumnBreakEvents(n)) == (if Accepts(open, Div) then Some(open) else None)
  {
    var evs := ColumnBreakEvents(n);
    assert evs == [evs[0]] + [evs[1]];
    FeedConcat(open, [evs[0]], [evs[1]]);
    FeedSingle(open, evs[0]);
    if Accepts(open, Div) {
      var o := open[..|open| - 1];
      FeedSingle(o, evs[1]);
      assert o + [Div] == open;
    }
  }

  /** What `<body>` opens, `</body>` closes again. */
  lemma BodyBalanced(open: seq<NsName>, textName: string, page: nat)
    ensures Feed(open, BodyStartEvents(textName, page) + BodyEndEvents) == Some(open)
  {
    var evs := BodyStartEvents(textName, page) + BodyEndEvents;
    FeedConcat(open, [evs[0]], evs[1..]);
    FeedConcat(open + [Div], [evs[1]], evs[2..]);
    FeedConcat(open + [Div, Div], [evs[2]], evs[3..]);
    FeedSingle(open, evs[0]);
    FeedSingle(open + [Div], evs[1]);
    FeedSingle(open + [Div, Div], evs[2]);
    FeedSingle(open + [Div], evs[3]);
    assert evs == [evs[0]] + evs[1..];
    assert evs[1..] == [evs[1]] + evs[2..];
    assert evs[2..] == [evs[2]] + evs[3..];
    assert evs[3..] == [evs[3]];
    assert open + [Div] + [Div] == open + [Div, Div];
    assert (open + [Div, Div])[..|open| + 1] == open + [Div];
    assert (open + [Div])[..|open|] == open;
  }

  /** The number of page breaks the pager acts on: `pb` opens not typed `pdf`. */
  function PageBreaks(input: seq<Event>): nat
    decreases |input|
  {
    if |input| == 0 then 0
    else
      var counts := input[0].Open? && TagEq(input[0].qname, "pb") && Get(input[0].attrs, Plain("type")) != Some("pdf");
      (if counts then 1 else 0) + PageBreaks(input[1..])
  }

  /** The line counter: reset by a counted page break, advanced by each `br` open. */
  function LineAfter(line: nat, input: seq<Event>): nat
    decreases |input|
  {
    if |input| == 0 then line
    else if input[0].Open? && TagEq(input[0].qname, "pb") && Get(input[0].attrs, Plain("type")) != Some("pdf") then
      LineAfter(1, input[1..])
    else if input[0].Open? && !IsMarker(input[0].qname) && !TagEq(input[0].qname, "body") && TagEq(input[0].qname, "br") then
      LineAfter(line + 1, input[1..])
    else LineAfter(line, input[1..])
  }

  /** The qualified names of the ordinary (not marker, not `body`) elements the input has left open. */
  function OrdinaryPath(path: seq<string>, input: seq<Event>): seq<string>
    decreases |input|
  {
    if |input| == 0 then path
    else match input[0]
      case Open(_, q, _) =>
        OrdinaryPath(if IsMarker(q) || TagEq(q, "body") then path else path + [q], input[1..])
      case Close(_, q) =>
        OrdinaryPath(if IsMarker(q) || TagEq(q, "body") || |path| == 0 then path else path[..|path| - 1], input[1..])
      case Text(_) => OrdinaryPath(path, input[1..])
  }

  /** Over a pass that completes, `page` counts the page breaks. */
  lemma {:induction false} RunCountsPages(checkColumns: bool, textName: string, st: PagerState, input: seq<Event>)
    requires Run(TeiStepper(checkColumns, textName), st, input).Some?
    ensures Run(TeiStepper(checkColumns, textName), st, input).value.page == st.page + PageBreaks(input)
    ensures Run(TeiStepper(checkColumns, textName), st, input).value.line == LineAfter(st.line, input)
    decreases |input|
  {
    if |input| > 0 {
      var s := TeiStepper(checkColumns, textName)(st.tagStack, st.page, st.line, input[0]);
      var snap := Snapshot(Feed(st.snap.open, s.evs).value, st.snap.out + s.evs, Track(st.snap.tags, s.evs));
      RunCountsPages(checkColumns, textName, PagerState(snap, s.tagStack, s.page, s.line), input[1..]);
    }
  }

  /** Over a pass that completes, `tag_stack` holds exactly the ordinary elements left open. */
  lemma {:induction false} RunTracksOrdinary(checkColumns: bool, textName: string, st: PagerState, input: seq<Event>)
    requires Run(TeiStepper(checkColumns, textName), st, input).Some?
    ensures QNames(Run(TeiStepper(checkColumns, textName), st, input).value.tagStack) == OrdinaryPath(QNames(st.tagStack), input)
    decreases |input|
  {
    if |input| > 0 {
      var s := TeiStepper(checkColumns, textName)(st.tagStack, st.page, st.line, input[0]);
      var snap := Snapshot(Feed(st.snap.open, s.evs).value, st.snap.out + s.evs, Track(st.snap.tags, s.evs));
      var ts := st.tagStack;
      match input[0] {
        case Open(n, q, a) =>
          if !IsMarker(q) && !TagEq(q, "body") {
            assert QNames(ts + [Entry(n, q, a)]) == QNames(ts) + [q];
          }
        case Close(n, q) =>
          if !IsMarker(q) && !TagEq(q, "body") {
            assert QNames(ts[..|ts| - 1]) == QNames(ts)[..|ts| - 1];
          }
        case Text(_) =>
      }
      RunTracksOrdinary(checkColumns, textName, PagerState(snap, s.tagStack, s.page, s.line), input[1..]);
    }
  }

  /** Running over two pieces is running over the first, then over the second. */
  lemma {:induction false} RunConcat(step: Stepper, st: PagerState, a: seq<Event>, b: seq<Event>)
    ensures Run(step, st, a + b) == if Run(step, st, a).Some? then Run(step, Run(step, st, a).value, b) else None
    decreases |a|
  {
    if |a| == 0 {
      assert a + b == b;
    } else {
      assert (a + b)[0] == a[0];
      assert (a + b)[1..] == a[1..] + b;
      var s := step(st.tagStack, st.page, st.line, a[0]);
      if s.Emit? && Feed(st.snap.open, s.evs).Some? {
        var snap := Snapshot(Feed(st.snap.open, s.evs).value, st.snap.out + s.evs, Track(st.snap.tags, s.evs));
        RunConcat(step, PagerState(snap, s.tagStack, s.page, s.line), a[1..], b);
      }
    }
  }

  /**
   * The ordinary elements left open after one event of a page body, or None
   * for a close that is not of the innermost one, a column break or a `body`.
   * Page breaks leave the path alone.
   */
  function NestOne(path: seq<NsName>, ev: Event): Option<seq<NsName>> {
    match ev
    case Open(n, q, _) =>
      if TagEq(q, "cb") || TagEq(q, "body") then None
      else if TagEq(q, "pb") then Some(path)
      else Some(path + [n])
    case Close(n, q) =>
      if TagEq(q, "cb") || TagEq(q, "body") then None
      else if TagEq(q, "pb") then Some(path)
      else if Accepts(path, n) then Some(path[..|path| - 1])
      else None
    case Text(_) => Some(path)
  }

  function Nest(path: seq<NsName>, input: seq<Event>): Option<seq<NsName>>
    decreases |input|
  {
    if |input| == 0 then Some(path)
    else match NestOne(path, input[0])
      case None => None
      case Some(p) => Nest(p, input[1..])
  }

  /**
   * A TEI body the pager is meant for: `<body>`, then well-nested content
   * with page breaks but no column break and no other `body`, then `</body>`.
   */
  predicate Document(input: seq<Event>) {
    |input| >= 2 && input[0].Open? && TagEq(input[0].qname, "body")
    && input[|input| - 1].Close? && TagEq(input[|input| - 1].qname, "body")
    && Nest([], input[1..|input| - 1]) == Some([])
  }

  /** The class of this revision's page `div`s. */
  function PageClass(textName: string): string {
    "printed-text-page " + textName
  }

  /**
   * What one step of a page body keeps: it is accepted, the tracked elements
   * stay the builder's innermost, directly inside `outer`, and follow the
   * nesting `path`; each page `div` opened is a page turned.
   */
  predicate StepKeeps(cls: string, outer: seq<NsName>, st: PagerState, s: Step, path: seq<NsName>) {
    && s.Emit? && Feed(st.snap.open, s.evs) == Some(outer + Names(s.tagStack))
    && Names(s.tagStack) == path
    && st.page <= s.page && DivsOfClass(cls, s.evs) == s.page - st.page
    && NoneOfClass(cls, s.tagStack)
  }

  /** The builder's stack while a page body is read: `outer` ends in the page `div`, the tracked elements follow. */
  predicate InPage(cls: string, outer: seq<NsName>, st: PagerState) {
    |outer| > 0 && outer[|outer| - 1] == Div
    && st.snap.open == outer + Names(st.tagStack) && NoneOfClass(cls, st.tagStack)
  }

  /** One event of a page body keeps the builder and the pager in step. */
  lemma BodyStep(checkColumns: bool, textName: string, outer: seq<NsName>, st: PagerState, ev: Event)
    requires InPage(PageClass(textName), outer, st)
    requires NestOne(Names(st.tagStack), ev).Some? && !IsDivOfClass(PageClass(textName), ev)
    ensures StepKeeps(PageClass(textName), outer, st, StepOn(checkColumns, textName, st.tagStack, st.page, st.line, ev),
                      NestOne(Names(st.tagStack), ev).value)
  {
    match ev {
      case Open(n, q, a) =>
        if TagEq(q, "pb") {
          PageTurnStep(checkColumns, textName, outer, st, n, q, a);
        } else {
          OrdinaryOpenStep(checkColumns, textName, outer, st, n, q, a);
        }
      case Close(n, q) => OrdinaryCloseStep(checkColumns, textName, outer, st, n, q);
      case Text(_) => FeedSingle(st.snap.open, ev);
    }
  }

  lemma PageTurnStep(checkColumns: bool, textName: string, outer: seq<NsName>, st: PagerState, n: NsName, q: string, a: Attrs)
    requires InPage(PageClass(textName), outer, st) && TagEq(q, "pb")
    ensures StepKeeps(PageClass(textName), outer, st, StartStep(checkColumns, textName, st.tagStack, st.page, st.line, n, q, a),
                      Names(st.tagStack))
  {
    var ts, open := st.tagStack, st.snap.open;
    if Get(a, Plain("type")) != Some("pdf") {
      PageBreakKeepsOpen(open, ts, textName, st.page + 1, Get(a, Plain("n")).GetOr(""));
      assert open[|open| - |[Div] + Names(ts)|..] == [Div] + Names(ts);
      PageBreakCounts(textName, ts, st.page + 1, Get(a, Plain("n")).GetOr(""));
    }
  }

  lemma OrdinaryOpenStep(checkColumns: bool, textName: string, outer: seq<NsName>, st: PagerState, n: NsName, q: string, a: Attrs)
    requires InPage(PageClass(textName), outer, st)
    requires !TagEq(q, "pb") && !TagEq(q, "cb") && !TagEq(q, "body") && !IsDivOfClass(PageClass(textName), Open(n, q, a))
    ensures StepKeeps(PageClass(textName), outer, st, StartStep(checkColumns, textName, st.tagStack, st.page, st.line, n, q, a),
                      Names(st.tagStack) + [n])
  {
    var ts, open := st.tagStack, st.snap.open;
    FeedSingle(open, Open(n, q, a));
    assert Names(ts + [Entry(n, q, a)]) == Names(ts) + [n];
    assert open + [n] == outer + Names(ts + [Entry(n, q, a)]);
  }

  lemma OrdinaryCloseStep(checkColumns: bool, textName: string, outer: seq<NsName>, st: PagerState, n: NsName, q: string)
    requires InPage(PageClass(textName), outer, st)
    requires NestOne(Names(st.tagStack), Close(n, q)).Some?
    ensures StepKeeps(PageClass(textName), outer, st, EndStep(st.tagStack, st.page, st.line, n, q),
                      NestOne(Names(st.tagStack), Close(n, q)).value)
  {
    var ts, open := st.tagStack, st.snap.open;
    if !TagEq(q, "pb") {
      FeedSingle(open, Close(n, q));
      assert Names(ts[..|ts| - 1]) == Names(ts)[..|ts| - 1];
      assert open[..|open| - 1] == outer + Names(ts)[..|ts| - 1];
    }
  }

  /** A page break opens exactly one page `div`: the replayed elements are none. */
  lemma PageBreakCounts(textName: string, ts: seq<Entry>, page: nat, rectoVerso: string)
    requires NoneOfClass(PageClass(textName), ts)
    ensures DivsOfClass(PageClass(textName), PageBreakEvents(ts, textName, page, rectoVerso)) == 1
  {
    var cls := PageClass(textName);
    var next := NextPageDiv(textName, page, rectoVerso);
    ReplayOpensNoDivOfClass(cls, ts);
    DivsOfClassConcat(cls, CloseAll(ts), next);
    DivsOfClassConcat(cls, CloseAll(ts) + next, OpenAll(ts));
    assert next[1..][1..] == [];
    var attrs := PageDivAttrs(textName, NatToString(page), rectoVerso);
    assert attrs[0] == (Plain("class"), cls);
    assert IsDivOfClass(cls, next[1]);
    assert next[1..] == [next[1]];
    assert DivsOfClass(cls, next) == DivsOfClass(cls, [next[1]]) == 1;
  }

  /** Over a page body the pass completes, tracking its nesting, and opens a page `div` per page turned. */
  lemma {:induction false} BodyRuns(checkColumns: bool, textName: string, outer: seq<NsName>, st: PagerState, w: seq<Event>)
    requires InPage(PageClass(textName), outer, st)
    requires Nest(Names(st.tagStack), w).Some? && DivsOfClass(PageClass(textName), w) == 0
    ensures var r := Run(TeiStepper(checkColumns, textName), st, w);
      && r.Some? && r.value.snap.open == outer + Names(r.value.tagStack)
      && Names(r.value.tagStack) == Nest(Names(st.tagStack), w).value
      && st.page <= r.value.page
      && DivsOfClass(PageClass(textName), r.value.snap.out) == DivsOfClass(PageClass(textName), st.snap.out) + (r.value.page - st.page)
    decreases |w|
  {
    if |w| > 0 {
      var cls := PageClass(textName);
      assert w == [w[0]] + w[1..];
      DivsOfClassConcat(cls, [w[0]], w[1..]);
      BodyStep(checkColumns, textName, outer, st, w[0]);
      var s := StepOn(checkColumns, textName, st.tagStack, st.page, st.line, w[0]);
      var snap := Snapshot(Feed(st.snap.open, s.evs).value, st.snap.out + s.evs, Track(st.snap.tags, s.evs));
      DivsOfClassConcat(cls, st.snap.out, s.evs);
      BodyRuns(checkColumns, textName, outer, PagerState(snap, s.tagStack, s.page, s.line), w[1..]);
    }
  }

  /**
   * A proper document paginates: the pass completes, the builder is left
   * with nothing open and the pager with nothing tracked, `page` counts the
   * page breaks, and the output opens one page `div` for the first page and
   * one per page break (the document having none of its own).
   */
  lemma PaginatesDocument(checkColumns: bool, textName: string, input: seq<Event>)
    requires Document(input) && DivsOfClass(PageClass(textName), input) == 0
    ensures var r := Run(TeiStepper(checkColumns, textName), Initial, input);
      && r.Some? && r.value.snap.open == [] && r.value.tagStack == []
      && r.value.page == PageBreaks(input)
      && DivsOfClass(PageClass(textName), r.value.snap.out) == PageBreaks(input) + 1
  {
    var step, cls := TeiStepper(checkColumns, textName), PageClass(textName);
    var w := input[1..|input| - 1];
    var last := input[|input| - 1];
    assert input == [input[0]] + (w + [last]);
    DivsOfClassConcat(cls, [input[0]], w + [last]);
    DivsOfClassConcat(cls, w, [last]);
    BodyOpens(checkColumns, textName, input[0], w + [last]);
    var st1 := FirstPage(textName);
    BodyRuns(checkColumns, textName, [Div, Div], st1, w);
    RunConcat(step, st1, w, [last]);
    BodyCloses(checkColumns, textName, Run(step, st1, w).value, last);
    RunCountsPages(checkColumns, textName, Initial, input);
  }

  /** The pager's state once `<body>` has opened the wrapper and the first page `div`. */
  function FirstPage(textName: string): PagerState {
    var body := BodyStartEvents(textName, 0);
    PagerState(Snapshot([Div, Div], body, Track([], body)), [], 0, 1)
  }

  lemma BodyOpens(checkColumns: bool, textName: string, ev: Event, rest: seq<Event>)
    requires ev.Open? && TagEq(ev.qname, "body")
    ensures Run(TeiStepper(checkColumns, textName), Initial, [ev] + rest)
         == Run(TeiStepper(checkColumns, textName), FirstPage(textName), rest)
    ensures DivsOfClass(PageClass(textName), FirstPage(textName).snap.out) == 1
  {
    var cls := PageClass(textName);
    BodyIsNoMarker(ev.qname);
    var body := BodyStartEvents(textName, 0);
    assert TeiStepper(checkColumns, textName)([], 0, 1, ev) == Emit(body, [], 0, 1);
    assert Initial.snap.out + body == body;
    FeedConcat([], [body[0]], [body[1]]);
    assert body == [body[0]] + [body[1]];
    FeedSingle([], body[0]);
    FeedSingle([Div], body[1]);
    var none: seq<NsName> := [];
    assert none + [Div] == [Div] && [Div] + [Div] == [Div, Div];
    assert Feed([], body) == Some([Div, Div]);
    assert ([ev] + rest)[1..] == rest;
    var attrs := PageDivAttrs(textName, NatToString(0), "0");
    assert attrs[0] == (Plain("class"), cls);
    assert IsDivOfClass(cls, body[1]);
    assert body[1..] == [body[1]];
    assert DivsOfClass(cls, body) == DivsOfClass(cls, [body[1]]) == 1;
  }

  lemma BodyCloses(checkColumns: bool, textName: string, st: PagerState, ev: Event)
    requires ev.Close? && TagEq(ev.qname, "body")
    requires st.snap.open == [Div, Div] && st.tagStack == []
    ensures var r := Run(TeiStepper(checkColumns, textName), st, [ev]);
      && r.Some? && r.value.snap.open == [] && r.value.tagStack == [] && r.value.page == st.page
      && DivsOfClass(PageClass(textName), r.value.snap.out) == DivsOfClass(PageClass(textName), st.snap.out)
  {
    FeedConcat([Div, Div], [BodyEndEvents[0]], [BodyEndEvents[1]]);
    assert BodyEndEvents == [BodyEndEvents[0]] + [BodyEndEvents[1]];
    FeedSingle([Div, Div], BodyEndEvents[0]);
    FeedSingle([Div], BodyEndEvents[1]);
    assert Feed([Div, Div], BodyEndEvents) == Some([]);
    DivsOfClassConcat(PageClass(textName), st.snap.out, BodyEndEvents);
    assert BodyEndEvents[1..][1..] == [];
    assert DivsOfClass(PageClass(textName), BodyEndEvents) == DivsOfClass(PageClass(textName), BodyEndEvents[1..]) == 0;
    assert TeiStepper(checkColumns, textName)([], st.page, st.line, ev) == Emit(BodyEndEvents, [], st.page, st.line);
    assert [ev][1..] == [];
  }

  /**
   * An example of a page break inside a column section:
   * `<body><div><cb n="1"/><pb/><cb n=""/></div></body>`. The builder
   * compares names only, and the column `div`s are untracked `div`s, so the
   * pass completes with nothing open. But closing the tracked `div` closes a
   * column `div`, turning the page closes the other one, and the second
   * page's `div` is opened three deep, inside the first page's `div` and the
   * document's `div`, where the first page's was opened inside the wrapper
   * alone. The column end then closes that second page `div`.
   */
  lemma ColumnPageBreakMisplaced(textName: string)
    ensures var r := Run(TeiStepper(true, textName), Initial, ColumnDocument);
      && r.Some? && r.value.snap.open == [] && r.value.page == 1
      && |r.value.snap.out| == 14
      && r.value.snap.out[1] == Open(Div, "div", PageDivAttrs(textName, "0", "0"))
      && Feed([], r.value.snap.out[..1]) == Some([Div])
      && r.value.snap.out[7] == Open(Div, "div", PageDivAttrs(textName, "1", ""))
      && Feed([], r.value.snap.out[..7]) == Some([Div, Div, Div])
  {
    var s4 := ColumnOpens(textName);
    var r := ColumnTurn(textName, s4);
    ColumnOutput(textName, s4.snap.out, r.snap.out);
    assert DivStack(1) == [Div] && DivStack(3) == [Div, Div, Div];
  }

  /** Where the example's page `div`s sit in what the builder receives. */
  lemma ColumnOutput(textName: string, opens: seq<Event>, out: seq<Event>)
    requires |opens| == 5 && Feed([], opens) == Some(DivStack(5))
    requires opens[0] == Open(Div, "div", []) && opens[1] == Open(Div, "div", PageDivAttrs(textName, "0", "0"))
    requires out == opens + PageBreakEvents([Entry(Div, "div", [])], textName, 1, "") + ColumnCloses
    ensures |out| == 14 && out[1] == Open(Div, "div", PageDivAttrs(textName, "0", "0"))
    ensures out[7] == Open(Div, "div", PageDivAttrs(textName, "1", ""))
    ensures Feed([], out[..1]) == Some(DivStack(1)) && Feed([], out[..7]) == Some(DivStack(3))
  {
    var pb := PageBreakEvents([Entry(Div, "div", [])], textName, 1, "");
    assert NatToString(1) == "1";
    assert pb == [Close(Div, "div"), Close(Div, "div"), Open(Div, "div", PageDivAttrs(textName, "1", "")), Open(Div, "div", [])] by {
      assert CloseAll([Entry(Div, "div", [])]) == [Close(Div, "div")] && OpenAll([Entry(Div, "div", [])]) == [Open(Div, "div", [])];
    }
    assert out[..7] == opens + [pb[0], pb[1]];
    FeedConcat([], opens, [pb[0], pb[1]]);
    FeedDivPair(5, pb[0], pb[1]);
    assert out[..1] == [out[0]];
    FeedDiv(0, out[0]);
    assert DivStack(0) == [];
  }

  /** `<body><div><cb n="1"/>`: the wrapper, the first page, the document's `div` and two column `div`s are open. */
  lemma ColumnOpens(textName: string) returns (st: PagerState)
    ensures Run(TeiStepper(true, textName), Initial, ColumnDocument) == Run(TeiStepper(true, textName), st, ColumnDocument[4..])
    ensures st.snap.open == DivStack(5) && st.tagStack == [Entry(Div, "div", [])] && st.page == 0 && st.line == 1
    ensures Feed([], st.snap.out) == Some(st.snap.open) && |st.snap.out| == 5
    ensures st.snap.out[0] == Open(Div, "div", []) && st.snap.out[1] == Open(Div, "div", PageDivAttrs(textName, "0", "0"))
  {
    var step, doc := TeiStepper(true, textName), ColumnDocument;
    var u := Entry(Div, "div", []);
    assert NatToString(0) == "0";
    assert Get(PlainAttrs([("n", "1")]), Plain("n")) == Some("1");
    ColumnNamesDistinct();
    assert DivStack(0) == [];
    // <body>
    var body := BodyStartEvents(textName, 0);
    assert step([], 0, 1, doc[0]) == Emit(body, [], 0, 1);
    FeedDivPair(0, body[0], body[1]);
    var s1 := StepAndCheck(step, Initial, doc, Emit(body, [], 0, 1), DivStack(2));
    // <div>
    assert step([], 0, 1, doc[1]) == Emit([Open(Div, "div", [])], [u], 0, 1);
    FeedDiv(2, Open(Div, "div", []));
    var s2 := StepAndCheck(step, s1, doc[1..], Emit([Open(Div, "div", [])], [u], 0, 1), DivStack(3));
    // <cb n="1"/>
    var open := ColumnBreakEvents(Some("1"));
    assert step([u], 0, 1, doc[2]) == Emit(open, [u], 0, 1);
    FeedDivPair(3, open[0], open[1]);
    var s3 := StepAndCheck(step, s2, doc[2..], Emit(open, [u], 0, 1), DivStack(5));
    assert step([u], 0, 1, doc[3]) == Emit([], [u], 0, 1);
    st := StepAndCheck(step, s3, doc[3..], Emit([], [u], 0, 1), DivStack(5));
    assert doc[3..][1..] == doc[4..];
  }

  /**
   * `<pb/>` and the rest of the example: the two column `div`s close, the
   * next page's `div` and the document's `div` open in their place, and the
   * pass then ends with every `div` closed.
   */
  lemma ColumnTurn(textName: string, st: PagerState) returns (r: PagerState)
    requires st.snap.open == DivStack(5) && st.tagStack == [Entry(Div, "div", [])] && st.page == 0 && st.line == 1
    requires Feed([], st.snap.out) == Some(st.snap.open)
    ensures Run(TeiStepper(true, textName), st, ColumnDocument[4..]) == Some(r)
    ensures r.snap.open == [] && r.page == 1
    ensures r.snap.out == st.snap.out + PageBreakEvents([Entry(Div, "div", [])], textName, 1, "") + ColumnCloses
  {
    var step, doc := TeiStepper(true, textName), ColumnDocument[4..];
    var u := Entry(Div, "div", []);
    assert NatToString(1) == "1";
    ColumnNamesDistinct();
    var pb := PageBreakEvents([u], textName, 1, "");
    assert pb == [Close(Div, "div"), Close(Div, "div"), Open(Div, "div", PageDivAttrs(textName, "1", "")), Open(Div, "div", [])] by {
      assert CloseAll([u]) == [Close(Div, "div")] && OpenAll([u]) == [Open(Div, "div", [])];
    }
    assert step([u], 0, 1, doc[0]) == Emit(pb, [u], 1, 1);
    FeedDivPair(5, pb[0], pb[1]);
    FeedDivPair(3, pb[2], pb[3]);
    assert pb == [pb[0], pb[1]] + [pb[2], pb[3]];
    FeedConcat(DivStack(5), [pb[0], pb[1]], [pb[2], pb[3]]);
    var s5 := StepAndCheck(step, st, doc, Emit(pb, [u], 1, 1), DivStack(5));
    assert step([u], 1, 1, doc[1]) == Emit([], [u], 1, 1);
    var s6 := StepAndCheck(step, s5, doc[1..], Emit([], [u], 1, 1), DivStack(5));
    assert doc[1..][1..] == ColumnDocument[6..];
    assert s5.snap.out + [] == s5.snap.out;
    r := ColumnEnds(textName, s6);
  }

  /** `<cb n=""/></div></body>`: the column end closes two `div`s, the second page's among them, and the rest closes what is left. */
  lemma ColumnEnds(textName: string, st: PagerState) returns (r: PagerState)
    requires st.snap.open == DivStack(5) && st.tagStack == [Entry(Div, "div", [])] && st.page == 1 && st.line == 1
    requires Feed([], st.snap.out) == Some(st.snap.open)
    ensures Run(TeiStepper(true, textName), st, ColumnDocument[6..]) == Some(r)
    ensures r.snap.open == [] && r.page == 1
    ensures r.snap.out == st.snap.out + ColumnCloses
  {
    var step, doc := TeiStepper(true, textName), ColumnDocument[6..];
    var u := Entry(Div, "div", []);
    assert Get(PlainAttrs([("n", "")]), Plain("n")) == Some("");
    ColumnNamesDistinct();
    var close := ColumnBreakEvents(Some(""));
    assert step([u], 1, 1, doc[0]) == Emit(close, [u], 1, 1);
    FeedDivPair(5, close[0], close[1]);
    var s7 := StepAndCheck(step, st, doc, Emit(close, [u], 1, 1), DivStack(3));
    assert step([u], 1, 1, doc[1]) == Emit([], [u], 1, 1);
    var s8 := StepAndCheck(step, s7, doc[1..], Emit([], [u], 1, 1), DivStack(3));
    assert doc[1..][1..] == ColumnDocument[8..];
    assert s7.snap.out + [] == s7.snap.out;
    r := DocumentEnds(textName, s8);
    assert ColumnCloses == close + [Close(Div, "div"), Close(Div, "div"), Close(Div, "div")];
  }

  /** `</div></body>`: the document's `div` closes, then the wrapper and what is left of the pages. */
  lemma DocumentEnds(textName: string, st: PagerState) returns (r: PagerState)
    requires st.snap.open == DivStack(3) && st.tagStack == [Entry(Div, "div", [])] && st.page == 1 && st.line == 1
    requires Feed([], st.snap.out) == Some(st.snap.open)
    ensures Run(TeiStepper(true, textName), st, ColumnDocument[8..]) == Some(r)
    ensures r.snap.open == [] && r.page == 1
    ensures r.snap.out == st.snap.out + [Close(Div, "div"), Close(Div, "div"), Close(Div, "div")]
  {
    var step, doc := TeiStepper(true, textName), ColumnDocument[8..];
    var u := Entry(Div, "div", []);
    ColumnNamesDistinct();
    assert DivStack(0) == [];
    assert step([u], 1, 1, doc[0]) == Emit([Close(Div, "div")], [], 1, 1);
    FeedDiv(3, Close(Div, "div"));
    var s9 := StepAndCheck(step, st, doc, Emit([Close(Div, "div")], [], 1, 1), DivStack(2));
    assert step([], 1, 1, doc[1]) == Emit(BodyEndEvents, [], 1, 1);
    FeedDivPair(2, BodyEndEvents[0], BodyEndEvents[1]);
    r := StepAndCheck(step, s9, doc[1..], Emit(BodyEndEvents, [], 1, 1), DivStack(0));
    assert doc[1..][1..] == [];
  }

  /** What the builder receives after the example's page break: five `div` ends. */
  const ColumnCloses: seq<Event> := [Close(Div, "div"), Close(Div, "div"), Close(Div, "div"), Close(Div, "div"), Close(Div, "div")]

  /** `n` nested `div`s. */
  function DivStack(n: nat): (r: seq<NsName>)
    ensures |r| == n && forall i :: 0 <= i < n ==> r[i] == Div
  {
    seq(n, _ => Div)
  }

  /** A `div` opened on `n` `div`s leaves `n + 1`; one closed leaves `n - 1`. */
  lemma FeedDiv(n: nat, e: Event)
    requires !e.Text? && e.name == Div && (e.Close? ==> n > 0)
    ensures Feed(DivStack(n), [e]) == Some(DivStack(if e.Open? then n + 1 else n - 1))
  {
    FeedSingle(DivStack(n), e);
    if e.Open? {
      assert DivStack(n) + [Div] == DivStack(n + 1);
    } else {
      assert DivStack(n)[..n - 1] == DivStack(n - 1);
    }
  }

  /** Two `div` events fed one after the other. */
  lemma FeedDivPair(n: nat, a: Event, b: Event)
    requires !a.Text? && a.name == Div && (a.Close? ==> n > 0)
    requires var m := if a.Open? then n + 1 else n - 1; !b.Text? && b.name == Div && (b.Close? ==> m > 0)
    ensures var m := if a.Open? then n + 1 else n - 1;
      Feed(DivStack(n), [a, b]) == Some(DivStack(if b.Open? then m + 1 else m - 1))
  {
    var m := if a.Open? then n + 1 else n - 1;
    assert [a, b] == [a] + [b];
    FeedConcat(DivStack(n), [a], [b]);
    FeedDiv(n, a);
    FeedDiv(m, b);
  }

  /** The tag names of the example, told apart by the builder's name test. */
  lemma ColumnNamesDistinct()
    ensures !TagEq("body", "pb") && !TagEq("body", "cb")
    ensures !TagEq("div", "pb") && !TagEq("div", "cb") && !TagEq("div", "body") && !TagEq("div", "br")
    ensures !TagEq("cb", "pb") && TagEq("cb", "cb") && !TagEq("cb", "body")
    ensures TagEq("pb", "pb") && !TagEq("pb", "body")
  {
    BodyIsNoMarker("body");
    if TagEq("div", "pb") || TagEq("div", "cb") || TagEq("div", "body") || TagEq("div", "br") {
      TagEqLast("div", "pb");
      TagEqLast("div", "body");
      TagEqLast("div", "br");
    }
    if TagEq("cb", "body") { TagEqLast("cb", "body"); }
    if TagEq("pb", "body") { TagEqLast("pb", "body"); }
  }

  /** One event of a concrete run: it is accepted, leaves `open` open, and the rest of the run goes on from there. */
  lemma StepAndCheck(step: Stepper, st: PagerState, input: seq<Event>, s: Step, open: seq<NsName>) returns (next: PagerState)
    requires |input| > 0 && Feed([], st.snap.out) == Some(st.snap.open)
    requires step(st.tagStack, st.page, st.line, input[0]) == s
    requires s.Emit? && Feed(st.snap.open, s.evs) == Some(open)
    ensures next == PagerState(Snapshot(open, st.snap.out + s.evs, Track(st.snap.tags, s.evs)), s.tagStack, s.page, s.line)
    ensures Run(step, st, input) == Run(step, next, input[1..])
    ensures Feed([], next.snap.out) == Some(open)
  {
    next := PagerState(Snapshot(open, st.snap.out + s.evs, Track(st.snap.tags, s.evs)), s.tagStack, s.page, s.line);
    FeedConcat([], st.snap.out, s.evs);
  }

  /** `<body><div><cb n="1"/><pb/><cb n=""/></div></body>`, as parser events. */
  const ColumnDocument: seq<Event> := [
    Open(Plain("body"), "body", []), Open(Div, "div", []),
    Open(Plain("cb"), "cb", PlainAttrs([("n", "1")])), Close(Plain("cb"), "cb"),
    Open(Plain("pb"), "pb", []), Close(Plain("pb"), "pb"),
    Open(Plain("cb"), "cb", PlainAttrs([("n", "")])), Close(Plain("cb"), "cb"),
    Close(Div, "div"), Close(Plain("body"), "body")]

  /**
   * `paginate`: feeds the whole event stream through a fresh pager. The
   * builder's trace is well nested and free of `pb`/`cb` markers whether or
   * not the pass completes; it completes exactly when `Run` does.
   */
  method Paginate(textName: string, checkColumns: bool, input: seq<Event>) returns (out: seq<Event>, err: Option<Failure>)
    ensures Avoids(out, IsMarker)
    ensures Feed([], out).Some?
    ensures err.None? <==> Run(TeiStepper(checkColumns, textName), Initial, input).Some?
    ensures err.None? ==> out == Run(TeiStepper(checkColumns, textName), Initial, input).value.snap.out
  {
    var pager := new TEIPager(textName, checkColumns);
    var i := 0;
    while i < |input|
      invariant 0 <= i <= |input|
      invariant fresh(pager.handler) && fresh(pager.handler.sink) && pager.Valid()
      invariant pager.textName == textName && pager.checkColumns == checkColumns
      invariant Run(TeiStepper(checkColumns, textName), Initial, input) == Run(TeiStepper(checkColumns, textName), pager.State(), input[i..])
    {
      assert input[i..] == [input[i]] + input[i + 1..];
      err := pager.HandleEvent(input[i], input[i + 1..]);
      if err.Some? {
        out := pager.handler.sink.out;
        return;
      }
      i := i + 1;
    }
    out := pager.handler.sink.out;
    err := None;
  }

  class TEIPager {
    /** The inherited `AugmentedContentHandler` part. */
    const handler: AugmentedHandler
    const textName: string
    const checkColumns: bool
    var tagStack: seq<Entry>
    var page: nat
    var line: nat

    /** The builder's trace stays well nested and free of markers; no marker is ever tracked. */
    ghost predicate Valid()
      reads this, handler, handler.sink
    {
      handler.Valid() && !handler.reraiseOriginal
      && EntriesAvoid(tagStack, IsMarker) && Avoids(handler.sink.out, IsMarker)
    }

    ghost function State(): PagerState
      reads this, handler, handler.sink
    {
      PagerState(handler.Snap(), tagStack, page, line)
    }

    /** The step `s` was carried out from the handler state `snap0`. */
    ghost predicate Did(s: Step, snap0: Snapshot)
      reads this, handler, handler.sink
    {
      s.Emit? && Moved(snap0, s.evs, handler.Snap()) && tagStack == s.tagStack && page == s.page && line == s.line
    }

    constructor (textName: string, checkColumns: bool)
      ensures Valid() && fresh(handler) && fresh(handler.sink)
      ensures State() == Initial
      ensures this.textName == textName && this.checkColumns == checkColumns
    {
      handler := new AugmentedHandler(false);
      this.textName := textName;
      this.checkColumns := checkColumns;
      tagStack, page, line := [], 0, 1;
    }

    method StartElementNS(name: NsName, qname: string, attrs: Attrs) returns (err: Option<Failure>)
      requires Valid()
      modifies this, handler, handler.sink
      ensures Valid()
      ensures var s := StartStep(checkColumns, textName, old(tagStack), old(page), old(line), name, qname, attrs);
        && (s.Refused? ==> err == Some(s.why) && State() == old(State()))
        && (s.Emit? ==> (err.None? <==> Feed(old(handler.sink.open), s.evs).Some?))
        && (err.None? ==> Did(s, old(handler.Snap())))
    {
      if TagEq(qname, "pb") {
        if Get(attrs, Plain("type")) != Some("pdf") {
          err := HandlePageBreak(Get(attrs, Plain("n")).GetOr(""));
        } else {
          err := None;
          assert handler.Snap().out == old(handler.Snap()).out + [];
        }
      } else if TagEq(qname, "cb") {
        err := HandleColumnBreak(Get(attrs, Plain("n")));
      } else if TagEq(qname, "body") {
        StartBody();
        err := None;
      } else {
        StartOrdinary(name, qname, attrs);
        err := None;
      }
    }

    /** `<body>` opens the outer `div` and the first page `div`. */
    method StartBody()
      requires Valid()
      modifies handler, handler.sink
      ensures Valid()
      ensures Moved(old(handler.Snap()), BodyStartEvents(textName, page), handler.Snap())
    {
      ghost var snap0 := handler.Snap();
      handler.StartElement("div", []);
      AvoidsSnoc(old(handler.sink.out), Open(Div, "div", []));
      ghost var snap1 := handler.Snap();
      StartNewPageDiv(NatToString(page), "0");
      MovedChain(snap0, [Open(Div, "div", [])], snap1, [Open(Div, "div", PageDivAttrs(textName, NatToString(page), "0"))], handler.Snap());
    }

    /** Any other element is tracked and passed on; `br` starts a new line. */
    method StartOrdinary(name: NsName, qname: string, attrs: Attrs)
      requires Valid() && !IsMarker(qname)
      modifies this, handler, handler.sink
      ensures Valid()
      ensures tagStack == old(tagStack) + [Entry(name, qname, attrs)] && page == old(page)
      ensures line == if TagEq(qname, "br") then old(line) + 1 else old(line)
      ensures Moved(old(handler.Snap()), [Open(name, qname, attrs)], handler.Snap())
    {
      if TagEq(qname, "br") {
        line := line + 1;
      }
      tagStack := tagStack + [Entry(name, qname, attrs)];
      handler.StartElementNS(name, qname, attrs);
      AvoidsSnoc(old(handler.sink.out), Open(name, qname, attrs));
    }

    /** `handlePageBreak`: a new page number, line 1, and the replay around a fresh page `div`. */
    method HandlePageBreak(rectoVerso: string) returns (err: Option<Failure>)
      requires Valid()
      modifies this, handler, handler.sink
      ensures Valid()
      ensures tagStack == old(tagStack) && page == old(page) + 1 && line == 1
      ensures var evs := PageBreakEvents(tagStack, textName, page, rectoVerso);
        && (err.None? <==> Feed(old(handler.sink.open), evs).Some?)
        && (err.None? ==> Moved(old(handler.Snap()), evs, handler.Snap()))
    {
      line := 1;
      page := page + 1;
      ghost var snap0 := handler.Snap();
      err := CloseAndTurn(rectoVerso);
      if err.Some? {
        FeedFailsBefore(snap0.open, CloseAll(tagStack) + NextPageDiv(textName, page, rectoVerso), OpenAll(tagStack));
        return;
      }
      ghost var snap1 := handler.Snap();
      ReopenAllTags();
      MovedChain(snap0, CloseAll(tagStack) + NextPageDiv(textName, page, rectoVerso), snap1, OpenAll(tagStack), handler.Snap());
    }

    /** The first two parts of a page break: every tracked element closed, then the page turned. */
    method CloseAndTurn(rectoVerso: string) returns (err: Option<Failure>)
      requires Valid()
      modifies handler, handler.sink
      ensures Valid()
      ensures var evs := CloseAll(tagStack) + NextPageDiv(textName, page, rectoVerso);
        && (err.None? <==> Feed(old(handler.sink.open), evs).Some?)
        && (err.None? ==> Moved(old(handler.Snap()), evs, handler.Snap()))
    {
      ghost var snap0 := handler.Snap();
      ghost var closes, middle := CloseAll(tagStack), NextPageDiv(textName, page, rectoVerso);
      err := CloseAllTags();
      if err.Some? {
        FeedFailsBefore(snap0.open, closes, middle);
        return;
      }
      ghost var snap1 := handler.Snap();
      err := TurnPage(NatToString(page), rectoVerso);
      if err.Some? {
        FeedFailsAfter(snap0.open, closes, snap1.open, middle);
        return;
      }
      MovedChain(snap0, closes, snap1, middle, handler.Snap());
    }

    /** The middle of a page break: `endElement("div")`, then `startNewPageDiv`. */
    method TurnPage(pageNo: string, rectoVerso: string) returns (err: Option<Failure>)
      requires Valid()
      modifies handler, handler.sink
      ensures Valid()
      ensures var evs := [Close(Div, "div"), Open(Div, "div", PageDivAttrs(textName, pageNo, rectoVerso))];
        && (err.None? <==> Feed(old(handler.sink.open), evs).Some?)
        && (err.None? ==> Moved(old(handler.Snap()), evs, handler.Snap()))
    {
      var snap0 := handler.Snap();
      var evs := [Close(Div, "div"), Open(Div, "div", PageDivAttrs(textName, pageNo, rectoVerso))];
      err := handler.EndElement("div");
      FeedSingle(snap0.open, evs[0]);
      if err.Some? {
        FeedFailsBefore(snap0.open, [evs[0]], [evs[1]]);
        assert [evs[0]] + [evs[1]] == evs;
        return;
      }
      AvoidsSnoc(snap0.out, evs[0]);
      var snap1 := handler.Snap();
      StartNewPageDiv(pageNo, rectoVerso);
      MovedChain(snap0, [evs[0]], snap1, [evs[1]], handler.Snap());
      assert [evs[0]] + [evs[1]] == evs;
    }

    /** `startNewPageDiv`: opens a page `div` through the augmented handler. */
    method StartNewPageDiv(pageNo: string, rectoVerso: string)
      requires Valid()
      modifies handler, handler.sink
      ensures Valid()
      ensures Moved(old(handler.Snap()), [Open(Div, "div", PageDivAttrs(textName, pageNo, rectoVerso))], handler.Snap())
    {
      handler.StartElement("div", [("class", "printed-text-page " + textName), ("data-n", pageNo), ("data-rvn", rectoVerso)]);
      AvoidsSnoc(old(handler.sink.out), Open(Div, "div", PageDivAttrs(textName, pageNo, rectoVerso)));
    }

    /** `handleColumnBreak`: the context check, then column `div`s that are not tracked. */
    method HandleColumnBreak(n: Option<string>) returns (err: Option<Failure>)
      requires Valid()
      modifies handler, handler.sink
      ensures Valid()
      ensures var check := ColumnCheck(checkColumns, tagStack, page, line);
        && (check.Some? ==> err == check && handler.Snap() == old(handler.Snap()))
        && (check.None? ==> (err.None? <==> Feed(old(handler.sink.open), ColumnBreakEvents(n)).Some?))
        && (err.None? ==> Moved(old(handler.Snap()), ColumnBreakEvents(n), handler.Snap()))
    {
      var check := ColumnCheck(checkColumns, tagStack, page, line);
      if check.Some? {
        return check;
      }
      var snap0 := handler.Snap();
      var evs := ColumnBreakEvents(n);
      if n == Some("1") {
        handler.StartElement("div", []);
        AvoidsSnoc(snap0.out, evs[0]);
        var snap1 := handler.Snap();
        handler.StartElement("div", [("class", "col-xs-6")]);
        AvoidsSnoc(snap1.out, evs[1]);
        MovedChain(snap0, [evs[0]], snap1, [evs[1]], handler.Snap());
        err := None;
      } else {
        err := handler.EndElement("div");
        AvoidsSnoc(snap0.out, evs[0]);
        if err.Some? {
          FeedSingle(snap0.open, evs[0]);
          FeedFailsBefore(snap0.open, [evs[0]], [evs[1]]);
          return;
        }
        var snap1 := handler.Snap();
        if n == Some("") {
          err := handler.EndElement("div");
        } else {
          handler.StartElement("div", [("class", "col-xs-6")]);
          err := None;
        }
        AvoidsSnoc(snap1.out, evs[1]);
        if err.Some? {
          FeedSingle(snap1.open, evs[1]);
          FeedFailsAfter(snap0.open, [evs[0]], snap1.open, [evs[1]]);
          return;
        }
        MovedChain(snap0, [evs[0]], snap1, [evs[1]], handler.Snap());
      }
      assert evs == [evs[0]] + [evs[1]];
    }

    method EndElementNS(name: NsName, qname: string) returns (err: Option<Failure>)
      requires Valid()
      modifies this, handler, handler.sink
      ensures Valid()
      ensures var s := EndStep(old(tagStack), old(page), old(line), name, qname);
        && (s.Refused? ==> err == Some(s.why) && State() == old(State()))
        && (s.Emit? ==> (err.None? <==> Feed(old(handler.sink.open), s.evs).Some?))
        && (err.None? ==> Did(s, old(handler.Snap())))
      ensures !TagEq(qname, "body") && !IsMarker(qname) && old(tagStack) != [] && err.Some? ==>
        err == Some(AtPosition(Rejection(qname, old(handler.realTagStack)), page, line))
    {
      if TagEq(qname, "body") {
        var snap0 := handler.Snap();
        err := handler.EndElement("div");
        AvoidsSnoc(snap0.out, Close(Div, "div"));
        if err.Some? {
          FeedSingle(snap0.open, Close(Div, "div"));
          FeedFailsBefore(snap0.open, [Close(Div, "div")], [Close(Div, "div")]);
          return;
        }
        var snap1 := handler.Snap();
        err := handler.EndElement("div");
        AvoidsSnoc(snap1.out, Close(Div, "div"));
        if err.Some? {
          FeedSingle(snap1.open, Close(Div, "div"));
          FeedFailsAfter(snap0.open, [Close(Div, "div")], snap1.open, [Close(Div, "div")]);
          return;
        }
        MovedChain(snap0, [Close(Div, "div")], snap1, [Close(Div, "div")], handler.Snap());
      } else if !TagEq(qname, "pb") && !TagEq(qname, "cb") {
        if |tagStack| == 0 {
          return Some(EmptyTagStack);
        }
        tagStack := tagStack[..|tagStack| - 1];
        err := handler.EndElementNS(name, qname);
        AvoidsSnoc(old(handler.sink.out), Close(name, qname));
        if err.Some? {
          FeedSingle(old(handler.sink.open), Close(name, qname));
          err := Some(AtPosition(err.value, page, line));
        }
      } else {
        err := None;
        assert handler.Snap().out == old(handler.Snap()).out + [];
      }
    }

    /** `characters`, inherited unchanged. */
    method Characters(content: string)
      requires Valid()
      modifies handler, handler.sink
      ensures Valid()
      ensures Moved(old(handler.Snap()), [Text(content)], handler.Snap())
    {
      handler.Characters(content);
      AvoidsSnoc(old(handler.sink.out), Text(content));
    }

    /** One parser callback: the pass goes on exactly where `Run` goes on, and stops exactly where it stops. */
    method HandleEvent(ev: Event, ghost rest: seq<Event>) returns (err: Option<Failure>)
      requires Valid()
      modifies this, handler, handler.sink
      ensures Valid()
      ensures err.None? ==> Run(TeiStepper(checkColumns, textName), old(State()), [ev] + rest) == Run(TeiStepper(checkColumns, textName), State(), rest)
      ensures err.Some? ==> Run(TeiStepper(checkColumns, textName), old(State()), [ev] + rest).None?
    {
      assert ([ev] + rest)[0] == ev && ([ev] + rest)[1..] == rest;
      match ev {
        case Open(n, q, a) => err := StartElementNS(n, q, a);
        case Close(n, q) => err := EndElementNS(n, q);
        case Text(c) => Characters(c); err := None;
      }
    }

    /** `closeAllTags`: accepted exactly when the tracked elements are the builder's innermost ones. */
    method CloseAllTags() returns (err: Option<Failure>)
      requires Valid()
      modifies handler, handler.sink
      ensures Valid()
      ensures err.None? <==> IsSuffix(Names(tagStack), old(handler.sink.open))
      ensures err.None? <==> Feed(old(handler.sink.open), CloseAll(tagStack)).Some?
      ensures err.None? ==> Moved(old(handler.Snap()), CloseAll(tagStack), handler.Snap())
    {
      var snap0 := handler.Snap();
      FeedCloseAll(snap0.open, tagStack);
      var i := |tagStack|;
      assert tagStack[i..] == [];
      while i > 0
        invariant 0 <= i <= |tagStack|
        invariant handler.Valid() && Avoids(handler.sink.out, IsMarker)
        invariant Moved(snap0, CloseAll(tagStack[i..]), handler.Snap())
      {
        var e := tagStack[i - 1];
        var before := handler.Snap();
        err := handler.EndElementNS(e.name, e.qname);
        AvoidsSnoc(before.out, Close(e.name, e.qname));
        assert tagStack[i - 1..][1..] == tagStack[i..];
        if err.Some? {
          FeedSingle(before.open, Close(e.name, e.qname));
          FeedFailsAfter(snap0.open, CloseAll(tagStack[i..]), before.open, [Close(e.name, e.qname)]);
          CloseAllAppend(tagStack[..i - 1], tagStack[i - 1..]);
          assert tagStack[..i - 1] + tagStack[i - 1..] == tagStack;
          FeedFailsBefore(snap0.open, CloseAll(tagStack[i - 1..]), CloseAll(tagStack[..i - 1]));
          return;
        }
        MovedChain(snap0, CloseAll(tagStack[i..]), before, [Close(e.name, e.qname)], handler.Snap());
        i := i - 1;
      }
      assert tagStack[0..] == tagStack;
      err := None;
    }

    /** `reopenAllTags`: always accepted; the tracked elements go back on top, outermost first. */
    method ReopenAllTags()
      requires Valid()
      modifies handler, handler.sink
      ensures Valid()
      ensures Moved(old(handler.Snap()), OpenAll(tagStack), handler.Snap())
    {
      var snap0 := handler.Snap();
      assert tagStack[..0] == [];
      for i := 0 to |tagStack|
        invariant handler.Valid() && Avoids(handler.sink.out, IsMarker)
        invariant Moved(snap0, OpenAll(tagStack[..i]), handler.Snap())
      {
        var e := tagStack[i];
        var before := handler.Snap();
        handler.StartElementNS(e.name, e.qname, e.attrs);
        AvoidsSnoc(before.out, Open(e.name, e.qname, e.attrs));
        assert tagStack[..i + 1][..i] == tagStack[..i];
        MovedChain(snap0, OpenAll(tagStack[..i]), before, [Open(e.name, e.qname, e.attrs)], handler.Snap());
      }
      assert tagStack[..|tagStack|] == tagStack;
    }
  }

  lemma DivIsNoMarker()
    ensures !IsMarker("div")
  {
    assert "div"[0] != ':';
  }

  /** Extending a marker-free trace by one non-marker event keeps it marker-free. */
  lemma AvoidsSnoc(out: seq<Event>, ev: Event)
    requires Avoids(out, IsMarker)
    requires (ev.Open? || ev.Close?) ==> ev.qname == "div" || !IsMarker(ev.qname)
    ensures Avoids(out + [ev], IsMarker)
  {
    DivIsNoMarker();
    AvoidsConcat(out, [ev], IsMarker);
  }
}
