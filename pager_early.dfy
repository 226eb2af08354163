/**
 * The earliest `TEIPager` (xml_to_html/xslt_magic.py). It writes straight
 * into the tree builder, tracks only the elements opened inside `<text>`
 * (the `in_text` flag), opens a `printed_text_page` `div` right after
 * `<text>`, and at every `<pb/>` closes and reopens the tracked elements.
 * Names are compared exactly: `text` and `pb` only, no namespace handling.
 *
 * As written, closing `</text>` closes that `div` in the builder but leaves
 * its entry on `tag_stack`; `clearOnTextEnd` selects the corrected
 * behaviour, where leaving `text` leaves nothing tracked.
 */
module EarlyPager {
  import opened Wrappers
  import opened Sax
  import opened Replay

  const Div: NsName := Plain("div")
  const PageDiv: Entry := Entry(Div, "div", PlainAttrs([("class", "printed_text_page")]))

  predicate IsPb(qname: string) {
    qname == "pb"
  }

  datatype Step =
    | Refused(why: Failure)
    | Emit(evs: seq<Event>, inText: bool, tagStack: seq<Entry>)

  function StartStep(inText: bool, ts: seq<Entry>, name: NsName, qname: string, attrs: Attrs): Step {
    if qname == "text" then Emit([Open(name, qname, attrs), Open(PageDiv.name, PageDiv.qname, PageDiv.attrs)], true, ts + [PageDiv])
    else if qname == "pb" then Emit(CloseAll(ts) + OpenAll(ts), inText, ts)
    else Emit([Open(name, qname, attrs)], inText, if inText then ts + [Entry(name, qname, attrs)] else ts)
  }

  function EndStep(clearOnTextEnd: bool, inText: bool, ts: seq<Entry>, name: NsName, qname: string): Step {
    if qname == "text" then Emit([Close(Div, "div"), Close(name, qname)], false, if clearOnTextEnd then [] else ts)
    else if qname == "pb" then Emit([], inText, ts)
    else if inText && |ts| == 0 then Refused(EmptyTagStack)
    else Emit([Close(name, qname)], inText, if inText then ts[..|ts| - 1] else ts)
  }

  function StepOn(clearOnTextEnd: bool, inText: bool, ts: seq<Entry>, ev: Event): Step {
    match ev
    case Open(n, q, a) => StartStep(inText, ts, n, q, a)
    case Close(n, q) => EndStep(clearOnTextEnd, inText, ts, n, q)
    case Text(c) => Emit([Text(c)], inText, ts)
  }

  datatype EarlyState = EarlyState(trace: Trace, inText: bool, tagStack: seq<Entry>)

  const Initial: EarlyState := EarlyState(Trace([], []), false, [])

  function After(st: EarlyState, s: Step): EarlyState
    requires s.Emit? && Feed(st.trace.open, s.evs).Some?
  {
    EarlyState(Trace(Feed(st.trace.open, s.evs).value, st.trace.out + s.evs), s.inText, s.tagStack)
  }

  function Run(clearOnTextEnd: bool, st: EarlyState, input: seq<Event>): Option<EarlyState>
    decreases |input|
  {
    if |input| == 0 then Some(st)
    else
      var s := StepOn(clearOnTextEnd, st.inText, st.tagStack, input[0]);
      if s.Refused? || Feed(st.trace.open, s.evs).None? then None
      else Run(clearOnTextEnd, After(st, s), input[1..])
  }

  /** A page break is accepted exactly when the tracked elements are the builder's innermost, and changes nothing. */
  lemma PageBreakKeepsOpen(open: seq<NsName>, ts: seq<Entry>)
    ensures Feed(open, CloseAll(ts) + OpenAll(ts)) == if IsSuffix(Names(ts), open) then Some(open) else None
  {
    FeedReplay(open, ts, []);
    assert CloseAll(ts) + [] + OpenAll(ts) == CloseAll(ts) + OpenAll(ts);
    if IsSuffix(Names(ts), open) {
      assert open[..|open| - |ts|] + Names(ts) == open;
    }
  }

  /**
   * What the pager needs for its page breaks to be accepted: outside `text`
   * nothing is tracked, inside it the tracked elements are the builder's
   * innermost open elements.
   */
  predicate Tracking(st: EarlyState) {
    (!st.inText ==> st.tagStack == []) && (st.inText ==> IsSuffix(Names(st.tagStack), st.trace.open))
  }

  /** Under `Tracking`, every page break is accepted and leaves the builder as it was. */
  lemma PageBreakAccepted(st: EarlyState, name: NsName, attrs: Attrs)
    requires Tracking(st)
    ensures var s := StartStep(st.inText, st.tagStack, name, "pb", attrs);
      s.Emit? && Feed(st.trace.open, s.evs) == Some(st.trace.open) && s.tagStack == st.tagStack
  {
    PageBreakKeepsOpen(st.trace.open, st.tagStack);
  }

  /**
   * The corrected pager keeps `Tracking` across every accepted event, except
   * a `text` opened inside another `text`.
   */
  lemma CorrectedStepKeepsTracking(st: EarlyState, ev: Event)
    requires Tracking(st)
    requires !(ev.Open? && ev.qname == "text" && st.inText)
    requires StepOn(true, st.inText, st.tagStack, ev).Emit?
    requires Feed(st.trace.open, StepOn(true, st.inText, st.tagStack, ev).evs).Some?
    ensures Tracking(After(st, StepOn(true, st.inText, st.tagStack, ev)))
  {
    match ev {
      case Open(n, q, a) =>
        if q == "text" {
          OpenTextKeepsTracking(st, n, a);
        } else if q == "pb" {
          PageBreakKeepsOpen(st.trace.open, st.tagStack);
        } else {
          OpenKeepsTracking(st, n, q, a);
        }
      case Close(n, q) =>
        if q != "text" && q != "pb" {
          CloseKeepsTracking(st, n, q);
        }
      case Text(_) =>
        FeedSingle(st.trace.open, Text(ev.content));
    }
  }

  lemma OpenTextKeepsTracking(st: EarlyState, n: NsName, a: Attrs)
    requires Tracking(st) && !st.inText
    ensures var s := StartStep(st.inText, st.tagStack, n, "text", a);
      Feed(st.trace.open, s.evs).Some? && Tracking(After(st, s))
  {
    var open := st.trace.open;
    var s := StartStep(st.inText, st.tagStack, n, "text", a);
    assert s.evs == [s.evs[0]] + [s.evs[1]];
    FeedConcat(open, [s.evs[0]], [s.evs[1]]);
    FeedSingle(open, s.evs[0]);
    FeedSingle(open + [n], s.evs[1]);
    assert s.tagStack == [PageDiv];
    assert Names([PageDiv]) == [Div];
  }

  lemma OpenKeepsTracking(st: EarlyState, n: NsName, q: string, a: Attrs)
    requires Tracking(st) && q != "text" && q != "pb"
    ensures var s := StartStep(st.inText, st.tagStack, n, q, a);
      Feed(st.trace.open, s.evs).Some? && Tracking(After(st, s))
  {
    var s := StartStep(st.inText, st.tagStack, n, q, a);
    FeedSingle(st.trace.open, s.evs[0]);
    if st.inText {
      assert Names(st.tagStack + [Entry(n, q, a)]) == Names(st.tagStack) + [n];
    }
  }

  lemma CloseKeepsTracking(st: EarlyState, n: NsName, q: string)
    requires Tracking(st) && q != "text" && q != "pb"
    requires var s := EndStep(true, st.inText, st.tagStack, n, q); s.Emit? && Feed(st.trace.open, s.evs).Some?
    ensures Tracking(After(st, EndStep(true, st.inText, st.tagStack, n, q)))
  {
    var open := st.trace.open;
    var ts := st.tagStack;
    FeedSingle(open, Close(n, q));
    if st.inText {
      var o := open[..|open| - 1];
      assert Names(ts[..|ts| - 1]) == Names(ts)[..|ts| - 1];
      assert o[|o| - (|ts| - 1)..] == open[|open| - |ts|..][..|ts| - 1];
    }
  }

  /** The class of this revision's page `div`s. */
  const PageClass: string := "printed_text_page"

  /**
   * The elements left open after one event inside `text`, or None for a
   * close that is not of the innermost one or a nested `text`. Page breaks
   * leave the path alone.
   */
  function NestOne(path: seq<NsName>, ev: Event): Option<seq<NsName>> {
    match ev
    case Open(n, q, _) =>
      if q == "text" then None
      else if q == "pb" then Some(path)
      else Some(path + [n])
    case Close(n, q) =>
      if q == "text" then None
      else if q == "pb" then Some(path)
      else if Accepts(path, n) then Some(path[..|path| - 1])
      else None
    case Text(_) => Some(path)
  }

  function Nest(path: seq<NsName>, input: seq<Event>): Option<seq<NsName>>
    decreases |input|
  {
    if |input| == 0 then Some(path)
    else match NestOne(path, input[0])
      case None => None
      case Some(p) => Nest(p, input[1..])
  }

  /** A `text` element the pager is meant for: well-nested content with page breaks and no other `text`. */
  predicate TextElement(input: seq<Event>) {
    |input| >= 2 && input[0].Open? && input[0].qname == "text"
    && input[|input| - 1] == Close(input[0].name, "text")
    && Nest([], input[1..|input| - 1]) == Some([])
  }

  /** The page breaks this revision acts on: every `pb` open. */
  function PageBreaks(input: seq<Event>): nat
    decreases |input|
  {
    if |input| == 0 then 0
    else (if input[0].Open? && IsPb(input[0].qname) then 1 else 0) + PageBreaks(input[1..])
  }

  /**
   * Inside the `text` named `n0`: the page `div` is the outermost tracked
   * entry, the builder holds `text` and the tracked elements, and `rest`
   * (the entries past the page `div`) holds no page `div`.
   */
  predicate InText(n0: NsName, st: EarlyState, rest: seq<Entry>) {
    st.inText && st.tagStack == [PageDiv] + rest
    && st.trace.open == [n0, Div] + Names(rest) && NoneOfClass(PageClass, rest)
  }

  /** One event inside `text` keeps the builder and the pager in step; a page break opens one page `div`. */
  lemma TextStep(clear: bool, n0: NsName, st: EarlyState, rest: seq<Entry>, ev: Event)
    requires InText(n0, st, rest)
    requires NestOne(Names(rest), ev).Some? && !IsDivOfClass(PageClass, ev)
    ensures var s := StepOn(clear, true, st.tagStack, ev);
      && s.Emit? && Feed(st.trace.open, s.evs).Some?
      && |s.tagStack| > 0 && InText(n0, After(st, s), s.tagStack[1..])
      && Names(s.tagStack[1..]) == NestOne(Names(rest), ev).value
      && DivsOfClass(PageClass, s.evs) == PageBreaks([ev])
  {
    assert [ev][1..] == [];
    match ev {
      case Open(n, q, a) =>
        if q == "pb" {
          TextPageBreak(n0, st, rest, n, a);
        } else {
          TextOpen(n0, st, rest, n, q, a);
        }
      case Close(n, q) =>
        if q != "pb" {
          TextClose(clear, n0, st, rest, n, q);
        }
      case Text(_) =>
        FeedSingle(st.trace.open, ev);
    }
  }

  lemma TextPageBreak(n0: NsName, st: EarlyState, rest: seq<Entry>, n: NsName, a: Attrs)
    requires InText(n0, st, rest)
    ensures var s := StartStep(true, st.tagStack, n, "pb", a);
      && s.Emit? && Feed(st.trace.open, s.evs) == Some(st.trace.open) && s.tagStack == st.tagStack
      && DivsOfClass(PageClass, s.evs) == 1
  {
    assert [n0, Div] + Names(rest) == [n0] + Names(st.tagStack);
    PageBreakKeepsOpen(st.trace.open, st.tagStack);
    ReplayOpensOneDivOfClass(PageClass, PageDiv, rest);
    assert PageDiv.attrs[0] == (Plain("class"), PageClass);
  }

  lemma TextOpen(n0: NsName, st: EarlyState, rest: seq<Entry>, n: NsName, q: string, a: Attrs)
    requires InText(n0, st, rest) && q != "pb" && q != "text" && !IsDivOfClass(PageClass, Open(n, q, a))
    ensures var s := StartStep(true, st.tagStack, n, q, a);
      && s.Emit? && Feed(st.trace.open, s.evs).Some?
      && s.tagStack == [PageDiv] + (rest + [Entry(n, q, a)])
      && InText(n0, After(st, s), rest + [Entry(n, q, a)])
      && Names(rest + [Entry(n, q, a)]) == Names(rest) + [n]
      && DivsOfClass(PageClass, s.evs) == 0
  {
    var e := Entry(n, q, a);
    FeedSingle(st.trace.open, Open(n, q, a));
    assert st.tagStack + [e] == [PageDiv] + (rest + [e]);
    assert Names(rest + [e]) == Names(rest) + [n];
    assert [Open(n, q, a)][1..] == [];
  }

  lemma TextClose(clear: bool, n0: NsName, st: EarlyState, rest: seq<Entry>, n: NsName, q: string)
    requires InText(n0, st, rest) && q != "pb" && q != "text" && Accepts(Names(rest), n)
    ensures var s := EndStep(clear, true, st.tagStack, n, q);
      && s.Emit? && Feed(st.trace.open, s.evs).Some?
      && s.tagStack == [PageDiv] + rest[..|rest| - 1]
      && InText(n0, After(st, s), rest[..|rest| - 1])
      && Names(rest[..|rest| - 1]) == Names(rest)[..|rest| - 1]
      && DivsOfClass(PageClass, s.evs) == 0
  {
    var ts := st.tagStack;
    FeedSingle(st.trace.open, Close(n, q));
    assert ts[..|ts| - 1] == [PageDiv] + rest[..|rest| - 1];
    assert Names(rest[..|rest| - 1]) == Names(rest)[..|rest| - 1];
    assert [Close(n, q)][1..] == [];
  }

  /** Over the content of `text` the pass completes, follows its nesting and opens a page `div` per page break. */
  lemma {:induction false} TextRuns(clear: bool, n0: NsName, st: EarlyState, rest: seq<Entry>, w: seq<Event>)
    requires InText(n0, st, rest)
    requires Nest(Names(rest), w).Some? && DivsOfClass(PageClass, w) == 0
    ensures var r := Run(clear, st, w);
      && r.Some? && |r.value.tagStack| > 0 && InText(n0, r.value, r.value.tagStack[1..])
      && Names(r.value.tagStack[1..]) == Nest(Names(rest), w).value
      && DivsOfClass(PageClass, r.value.trace.out) == DivsOfClass(PageClass, st.trace.out) + PageBreaks(w)
    decreases |w|
  {
    if |w| > 0 {
      assert w == [w[0]] + w[1..];
      DivsOfClassConcat(PageClass, [w[0]], w[1..]);
      assert [w[0]][1..] == [];
      TextStep(clear, n0, st, rest, w[0]);
      var s := StepOn(clear, true, st.tagStack, w[0]);
      DivsOfClassConcat(PageClass, st.trace.out, s.evs);
      TextRuns(clear, n0, After(st, s), s.tagStack[1..], w[1..]);
    }
  }

  lemma {:induction false} RunConcat(clear: bool, st: EarlyState, a: seq<Event>, b: seq<Event>)
    ensures Run(clear, st, a + b) == if Run(clear, st, a).Some? then Run(clear, Run(clear, st, a).value, b) else None
    decreases |a|
  {
    if |a| == 0 {
      assert a + b == b;
    } else {
      assert (a + b)[0] == a[0];
      assert (a + b)[1..] == a[1..] + b;
      var s := StepOn(clear, st.inText, st.tagStack, a[0]);
      if s.Emit? && Feed(st.trace.open, s.evs).Some? {
        RunConcat(clear, After(st, s), a[1..], b);
      }
    }
  }

  /**
   * A proper `text` element paginates from the start of a document: the
   * pass completes with nothing open, one page `div` for the first page and
   * one per page break; the page `div`'s entry stays tracked unless
   * `clearOnTextEnd`.
   */
  lemma PaginatesText(clear: bool, input: seq<Event>)
    requires TextElement(input) && DivsOfClass(PageClass, input) == 0
    ensures var r := Run(clear, Initial, input);
      && r.Some? && r.value.trace.open == [] && !r.value.inText
      && r.value.tagStack == (if clear then [] else [PageDiv])
      && DivsOfClass(PageClass, r.value.trace.out) == PageBreaks(input) + 1
  {
    var w := input[1..|input| - 1];
    var first, last := input[0], input[|input| - 1];
    assert input == [first] + (w + [last]);
    DivsOfClassConcat(PageClass, [first], w + [last]);
    DivsOfClassConcat(PageClass, w, [last]);
    TextOpens(clear, first, w + [last]);
    var st1 := AfterTextOpened(first.name, first.attrs);
    var none: seq<Entry> := [];
    assert Names(none) == [];
    TextRuns(clear, first.name, st1, none, w);
    RunConcat(clear, st1, w, [last]);
    var st2 := Run(clear, st1, w).value;
    TextCloses(clear, first.name, st2, last);
    NoPageBreak(first);
    NoPageBreak(last);
    PageBreaksConcat([first], w + [last]);
    PageBreaksConcat(w, [last]);
  }

  function AfterTextOpened(n0: NsName, a: Attrs): EarlyState {
    var evs := [Open(n0, "text", a), Open(PageDiv.name, PageDiv.qname, PageDiv.attrs)];
    EarlyState(Trace([n0, Div], evs), true, [PageDiv])
  }

  lemma TextOpens(clear: bool, ev: Event, rest: seq<Event>)
    requires ev.Open? && ev.qname == "text"
    ensures Run(clear, Initial, [ev] + rest) == Run(clear, AfterTextOpened(ev.name, ev.attrs), rest)
    ensures InText(ev.name, AfterTextOpened(ev.name, ev.attrs), [])
    ensures DivsOfClass(PageClass, AfterTextOpened(ev.name, ev.attrs).trace.out) == 1
  {
    var evs := AfterTextOpened(ev.name, ev.attrs).trace.out;
    assert evs == [evs[0]] + [evs[1]];
    FeedConcat([], [evs[0]], [evs[1]]);
    FeedSingle([], evs[0]);
    FeedSingle([ev.name], evs[1]);
    var none: seq<NsName> := [];
    assert none + [ev.name] == [ev.name] && [ev.name] + [Div] == [ev.name, Div];
    assert ([ev] + rest)[1..] == rest;
    var noEntries: seq<Entry> := [];
    assert Names(noEntries) == [] && [PageDiv] + noEntries == [PageDiv];
    assert PageDiv.attrs[0] == (Plain("class"), PageClass);
    assert StepOn(clear, false, [], ev) == Emit(evs, true, [PageDiv]);
    assert Initial.trace.out + evs == evs;
    assert Feed([], evs) == Some([ev.name, Div]);
    assert !IsDivOfClass(PageClass, evs[0]) && IsDivOfClass(PageClass, evs[1]);
    assert evs[1..] == [evs[1]] && [evs[1]][1..] == [];
    assert DivsOfClass(PageClass, evs) == DivsOfClass(PageClass, [evs[1]]) == 1;
  }

  lemma TextCloses(clear: bool, n0: NsName, st: EarlyState, ev: Event)
    requires |st.tagStack| > 0 && InText(n0, st, st.tagStack[1..]) && Names(st.tagStack[1..]) == []
    requires ev == Close(n0, "text")
    ensures var r := Run(clear, st, [ev]);
      && r.Some? && r.value.trace.open == [] && !r.value.inText
      && r.value.tagStack == (if clear then [] else [PageDiv])
      && DivsOfClass(PageClass, r.value.trace.out) == DivsOfClass(PageClass, st.trace.out)
  {
    var evs := [Close(Div, "div"), Close(n0, "text")];
    assert |st.tagStack[1..]| == |Names(st.tagStack[1..])| == 0;
    assert st.tagStack == [PageDiv] && st.trace.open == [n0, Div];
    assert evs == [evs[0]] + [evs[1]];
    FeedConcat([n0, Div], [evs[0]], [evs[1]]);
    FeedSingle([n0, Div], evs[0]);
    FeedSingle([n0], evs[1]);
    DivsOfClassConcat(PageClass, st.trace.out, evs);
    assert evs[1..][1..] == [];
    assert DivsOfClass(PageClass, evs) == DivsOfClass(PageClass, evs[1..]) == 0;
    assert StepOn(clear, true, st.tagStack, ev) == Emit(evs, false, if clear then [] else st.tagStack);
    assert [ev][1..] == [];
  }

  lemma NoPageBreak(ev: Event)
    requires !(ev.Open? && IsPb(ev.qname))
    ensures PageBreaks([ev]) == 0
  {
    assert [ev][1..] == [];
  }

  lemma {:induction false} PageBreaksConcat(a: seq<Event>, b: seq<Event>)
    ensures PageBreaks(a + b) == PageBreaks(a) + PageBreaks(b)
    decreases |a|
  {
    if |a| == 0 {
      assert a + b == b;
    } else {
      assert (a + b)[1..] == a[1..] + b;
      PageBreaksConcat(a[1..], b);
    }
  }

  const TeiName: NsName := Plain("TEI")
  const TextName: NsName := Plain("text")
  const PbName: NsName := Plain("pb")

  /** A document with two `text` elements, the second with a page break: `<TEI><text/><text><pb/></text></TEI>`. */
  const TwoTexts: seq<Event> := [
    OpenTei, OpenText, CloseText,
    OpenText, Open(PbName, "pb", []), Close(PbName, "pb"), CloseText, CloseTei
  ]

  /** Feeding two events is feeding one, then the other. */
  lemma FeedPair(open: seq<NsName>, e1: Event, e2: Event)
    ensures Feed(open, [e1, e2]) == if Feed(open, [e1]).Some? then Feed(Feed(open, [e1]).value, [e2]) else None
  {
    assert [e1, e2] == [e1] + [e2];
    FeedConcat(open, [e1], [e2]);
  }

  /**
   * As written, the page break in the second `text` replays a close of the
   * first `text`'s page `div`, which is no longer open, and the pass aborts;
   * right after the first `text` the tracking is already lost. The corrected
   * pager accepts the same document and leaves nothing open.
   */
  lemma StaleEntryBreaksPageBreak()
    ensures Run(false, Initial, TwoTexts).None?
    ensures Run(true, Initial, TwoTexts).Some? && Run(true, Initial, TwoTexts).value.trace.open == []
    ensures Run(false, Initial, TwoTexts[..3]).Some? && !Tracking(Run(false, Initial, TwoTexts[..3]).value)
  {
    TwoTextsRun(false);
    TwoTextsRun(true);
  }

  lemma TwoTextsRun(clear: bool)
    ensures clear <==> Run(clear, Initial, TwoTexts).Some?
    ensures clear ==> Run(clear, Initial, TwoTexts).value.trace.open == []
    ensures Run(clear, Initial, TwoTexts[..3]).Some?
    ensures Run(clear, Initial, TwoTexts[..3]).value.tagStack == if clear then [] else [PageDiv]
    ensures !Run(clear, Initial, TwoTexts[..3]).value.inText
  {
    RootOpened(clear);
    FirstText(clear);
    TextClosed(clear);
    TextAgain(clear);
    PageBreakInSecondText(clear);
  }

  const OpenTei: Event := Open(TeiName, "TEI", [])
  const CloseTei: Event := Close(TeiName, "TEI")
  const OpenText: Event := Open(TextName, "text", [])
  const OpenPageDiv: Event := Open(Div, "div", PageDiv.attrs)
  const CloseDiv: Event := Close(Div, "div")
  const CloseText: Event := Close(TextName, "text")

  /** The states the two pagers reach inside `TwoTexts`: after one, two, three and four events. */
  function AfterRoot(): EarlyState {
    EarlyState(Trace([TeiName], [OpenTei]), false, [])
  }

  function AfterOne(): EarlyState {
    EarlyState(Trace([TeiName, TextName, Div], [OpenTei, OpenText, OpenPageDiv]), true, [PageDiv])
  }

  function AfterTwo(clear: bool): EarlyState {
    EarlyState(Trace([TeiName], [OpenTei, OpenText, OpenPageDiv, CloseDiv, CloseText]), false,
               if clear then [] else [PageDiv])
  }

  function AfterThree(clear: bool): EarlyState {
    EarlyState(Trace([TeiName, TextName, Div],
                     [OpenTei, OpenText, OpenPageDiv, CloseDiv, CloseText, OpenText, OpenPageDiv]), true,
               if clear then [PageDiv] else [PageDiv, PageDiv])
  }

  lemma RootOpened(clear: bool)
    ensures Run(clear, Initial, TwoTexts) == Run(clear, AfterRoot(), TwoTexts[1..])
    ensures Run(clear, Initial, TwoTexts[..3]) == Run(clear, AfterRoot(), TwoTexts[1..3])
  {
    FeedSingle([], OpenTei);
    var none: seq<NsName> := [];
    assert none + [TeiName] == [TeiName];
    var s0 := StepOn(clear, false, [], TwoTexts[0]);
    assert s0 == Emit([OpenTei], false, []);
    assert After(Initial, s0) == AfterRoot();
    assert TwoTexts[..3][1..] == TwoTexts[1..3];
  }

  lemma FirstText(clear: bool)
    ensures Run(clear, AfterRoot(), TwoTexts[1..]) == Run(clear, AfterOne(), TwoTexts[2..])
    ensures Run(clear, AfterRoot(), TwoTexts[1..3]) == Run(clear, AfterOne(), TwoTexts[2..3])
  {
    FeedPair([TeiName], OpenText, OpenPageDiv);
    FeedSingle([TeiName], OpenText);
    FeedSingle([TeiName, TextName], OpenPageDiv);
    var s1 := StepOn(clear, false, [], TwoTexts[1]);
    assert s1 == Emit([OpenText, OpenPageDiv], true, [PageDiv]);
    assert [TeiName] + [TextName] == [TeiName, TextName];
    assert [TeiName, TextName] + [OpenPageDiv.name] == [TeiName, TextName, Div];
    assert Feed([TeiName], s1.evs) == Some([TeiName, TextName, Div]);
    assert After(AfterRoot(), s1) == AfterOne();
    assert TwoTexts[1..][1..] == TwoTexts[2..];
    assert TwoTexts[1..3][1..] == TwoTexts[2..3];
  }

  lemma TextClosed(clear: bool)
    ensures Run(clear, AfterOne(), TwoTexts[2..]) == Run(clear, AfterTwo(clear), TwoTexts[3..])
    ensures Run(clear, AfterOne(), TwoTexts[2..3]) == Some(AfterTwo(clear))
  {
    FeedPair([TeiName, TextName, Div], CloseDiv, CloseText);
    FeedSingle([TeiName, TextName, Div], CloseDiv);
    FeedSingle([TeiName, TextName], CloseText);
    var s2 := StepOn(clear, true, [PageDiv], TwoTexts[2]);
    assert s2 == Emit([CloseDiv, CloseText], false, if clear then [] else [PageDiv]);
    assert After(AfterOne(), s2) == AfterTwo(clear);
    assert TwoTexts[2..][1..] == TwoTexts[3..];
    assert TwoTexts[2..3][1..] == [];
  }

  lemma TextAgain(clear: bool)
    ensures Run(clear, AfterTwo(clear), TwoTexts[3..]) == Run(clear, AfterThree(clear), TwoTexts[4..])
  {
    FeedPair([TeiName], OpenText, OpenPageDiv);
    FeedSingle([TeiName], OpenText);
    FeedSingle([TeiName, TextName], OpenPageDiv);
    var s3 := StepOn(clear, false, AfterTwo(clear).tagStack, TwoTexts[3]);
    assert [TeiName] + [TextName] == [TeiName, TextName];
    assert [TeiName, TextName] + [OpenPageDiv.name] == [TeiName, TextName, Div];
    assert s3 == Emit([OpenText, OpenPageDiv], true, AfterThree(clear).tagStack);
    assert After(AfterTwo(clear), s3) == AfterThree(clear);
    assert TwoTexts[3..][1..] == TwoTexts[4..];
  }

  lemma PageBreakInSecondText(clear: bool)
    ensures clear <==> Run(clear, AfterThree(clear), TwoTexts[4..]).Some?
    ensures clear ==> Run(clear, AfterThree(clear), TwoTexts[4..]).value.trace.open == []
  {
    var st3 := AfterThree(clear);
    var ts3 := st3.tagStack;
    PageBreakKeepsOpen([TeiName, TextName, Div], ts3);
    assert TwoTexts[4..][1..] == TwoTexts[5..];
    if clear {
      PageBreakCleared();
      PageBreakEndIgnored();
      SecondTextClosed();
    } else {
      assert Names(ts3) == [Div, Div];
      assert !IsSuffix([Div, Div], [TeiName, TextName, Div]);
    }
  }

  /** The corrected pager's state after the page break in the second `text`. */
  function AfterFour(): EarlyState {
    var st3 := AfterThree(true);
    EarlyState(Trace(st3.trace.open, st3.trace.out + (CloseAll([PageDiv]) + OpenAll([PageDiv]))), true, [PageDiv])
  }

  lemma PageBreakCleared()
    ensures Run(true, AfterThree(true), TwoTexts[4..]) == Run(true, AfterFour(), TwoTexts[5..])
  {
    var st3 := AfterThree(true);
    PageBreakKeepsOpen([TeiName, TextName, Div], st3.tagStack);
    assert Names(st3.tagStack) == [Div];
    var s := StartStep(true, st3.tagStack, PbName, "pb", []);
    assert StepOn(true, true, st3.tagStack, TwoTexts[4..][0]) == s;
    assert After(st3, s) == AfterFour();
    assert TwoTexts[4..][1..] == TwoTexts[5..];
  }

  lemma PageBreakEndIgnored()
    ensures Run(true, AfterFour(), TwoTexts[5..]) == Run(true, AfterFour(), TwoTexts[6..])
  {
    var st4 := AfterFour();
    assert Feed(st4.trace.open, []) == Some(st4.trace.open);
    assert st4.trace.out + [] == st4.trace.out;
    assert TwoTexts[5..][1..] == TwoTexts[6..];
  }

  lemma SecondTextClosed()
    ensures Run(true, AfterFour(), TwoTexts[6..]).Some?
    ensures Run(true, AfterFour(), TwoTexts[6..]).value.trace.open == []
  {
    FeedPair([TeiName, TextName, Div], CloseDiv, CloseText);
    FeedSingle([TeiName, TextName, Div], CloseDiv);
    FeedSingle([TeiName, TextName], CloseText);
    FeedSingle([TeiName], CloseTei);
    assert TwoTexts[6..][1..] == [CloseTei];
    assert [CloseTei][1..] == [];
  }

  /** The early pager over the plain builder. */
  class TEIPager {
    const sink: Sink
    const clearOnTextEnd: bool
    var inText: bool
    var tagStack: seq<Entry>

    /** The builder's trace never holds a `pb`, and `pb` is never tracked. */
    ghost predicate Valid()
      reads this, sink
    {
      sink.Valid() && EntriesAvoid(tagStack, IsPb) && Avoids(sink.out, IsPb)
    }

    ghost function State(): EarlyState
      reads this, sink
    {
      EarlyState(sink.Now(), inText, tagStack)
    }

    ghost predicate Did(s: Step, t0: Trace)
      reads this, sink
    {
      s.Emit? && Passed(t0, s.evs, sink.Now()) && inText == s.inText && tagStack == s.tagStack
    }

    constructor (clearOnTextEnd: bool)
      ensures Valid() && fresh(sink) && State() == Initial && this.clearOnTextEnd == clearOnTextEnd
    {
      sink := new Sink();
      this.clearOnTextEnd := clearOnTextEnd;
      inText, tagStack := false, [];
    }

    method StartElementNS(name: NsName, qname: string, attrs: Attrs) returns (err: Option<Failure>)
      requires Valid()
      modifies this, sink
      decreases if qname == "text" then 1 else 0
      ensures Valid()
      ensures var s := StartStep(old(inText), old(tagStack), name, qname, attrs);
        && (err.None? <==> Feed(old(sink.open), s.evs).Some?)
        && (err.None? ==> Did(s, old(sink.Now())))
    {
      if qname == "text" {
        inText := true;
        var t0 := sink.Now();
        sink.StartElementNS(name, qname, attrs);
        AvoidsSnoc(t0.out, Open(name, qname, attrs));
        var t1 := sink.Now();
        err := StartElementNS(PageDiv.name, PageDiv.qname, PageDiv.attrs);
        PassedChain(t0, [Open(name, qname, attrs)], t1, [Open(PageDiv.name, PageDiv.qname, PageDiv.attrs)], sink.Now());
      } else if qname == "pb" {
        var t0 := sink.Now();
        err := CloseAllTags();
        if err.Some? {
          FeedFailsBefore(t0.open, CloseAll(tagStack), OpenAll(tagStack));
          return;
        }
        var t1 := sink.Now();
        ReopenAllTags();
        PassedChain(t0, CloseAll(tagStack), t1, OpenAll(tagStack), sink.Now());
      } else {
        if inText {
          tagStack := tagStack + [Entry(name, qname, attrs)];
        }
        sink.StartElementNS(name, qname, attrs);
        AvoidsSnoc(old(sink.out), Open(name, qname, attrs));
        err := None;
      }
    }

    method EndElementNS(name: NsName, qname: string) returns (err: Option<Failure>)
      requires Valid()
      modifies this, sink
      ensures Valid()
      ensures var s := EndStep(clearOnTextEnd, old(inText), old(tagStack), name, qname);
        && (s.Refused? ==> err == Some(s.why) && State() == old(State()))
        && (s.Emit? ==> (err.None? <==> Feed(old(sink.open), s.evs).Some?))
        && (err.None? ==> Did(s, old(sink.Now())))
    {
      if qname == "text" {
        inText := false;
        if clearOnTextEnd {
          tagStack := [];
        }
        var t0 := sink.Now();
        err := sink.EndElementNS(Div, "div");
        if err.Some? {
          FeedSingle(t0.open, Close(Div, "div"));
          FeedFailsBefore(t0.open, [Close(Div, "div")], [Close(name, qname)]);
          return;
        }
        AvoidsSnoc(t0.out, Close(Div, "div"));
        var t1 := sink.Now();
        err := sink.EndElementNS(name, qname);
        if err.Some? {
          FeedSingle(t1.open, Close(name, qname));
          FeedFailsAfter(t0.open, [Close(Div, "div")], t1.open, [Close(name, qname)]);
          return;
        }
        AvoidsSnoc(t1.out, Close(name, qname));
        PassedChain(t0, [Close(Div, "div")], t1, [Close(name, qname)], sink.Now());
      } else if qname != "pb" {
        if inText {
          if |tagStack| == 0 {
            return Some(EmptyTagStack);
          }
          tagStack := tagStack[..|tagStack| - 1];
        }
        err := sink.EndElementNS(name, qname);
        if err.Some? {
          FeedSingle(old(sink.open), Close(name, qname));
          return;
        }
        AvoidsSnoc(old(sink.out), Close(name, qname));
      } else {
        err := None;
        assert sink.Now().out == old(sink.Now()).out + [];
      }
    }

    method Characters(content: string)
      requires Valid()
      modifies sink
      ensures Valid()
      ensures Passed(old(sink.Now()), [Text(content)], sink.Now())
    {
      sink.Characters(content);
      AvoidsSnoc(old(sink.out), Text(content));
    }

    /** One parser callback: the pass goes on exactly where `Run` goes on, and stops exactly where it stops. */
    method HandleEvent(ev: Event, ghost rest: seq<Event>) returns (err: Option<Failure>)
      requires Valid()
      modifies this, sink
      ensures Valid()
      ensures err.None? ==> Run(clearOnTextEnd, old(State()), [ev] + rest) == Run(clearOnTextEnd, State(), rest)
      ensures err.Some? ==> Run(clearOnTextEnd, old(State()), [ev] + rest).None?
    {
      assert ([ev] + rest)[0] == ev && ([ev] + rest)[1..] == rest;
      match ev {
        case Open(n, q, a) => err := StartElementNS(n, q, a);
        case Close(n, q) => err := EndElementNS(n, q);
        case Text(c) => Characters(c); err := None;
      }
    }

    method CloseAllTags() returns (err: Option<Failure>)
      requires Valid()
      modifies sink
      ensures Valid()
      ensures err.None? <==> IsSuffix(Names(tagStack), old(sink.open))
      ensures err.None? <==> Feed(old(sink.open), CloseAll(tagStack)).Some?
      ensures err.None? ==> Passed(old(sink.Now()), CloseAll(tagStack), sink.Now())
    {
      var t0 := sink.Now();
      FeedCloseAll(t0.open, tagStack);
      var i := |tagStack|;
      assert tagStack[i..] == [];
      while i > 0
        invariant 0 <= i <= |tagStack|
        invariant sink.Valid() && Avoids(sink.out, IsPb)
        invariant Passed(t0, CloseAll(tagStack[i..]), sink.Now())
      {
        var e := tagStack[i - 1];
        var before := sink.Now();
        err := sink.EndElementNS(e.name, e.qname);
        assert tagStack[i - 1..][1..] == tagStack[i..];
        if err.Some? {
          FeedSingle(before.open, Close(e.name, e.qname));
          FeedFailsAfter(t0.open, CloseAll(tagStack[i..]), before.open, [Close(e.name, e.qname)]);
          CloseAllAppend(tagStack[..i - 1], tagStack[i - 1..]);
          assert tagStack[..i - 1] + tagStack[i - 1..] == tagStack;
          FeedFailsBefore(t0.open, CloseAll(tagStack[i - 1..]), CloseAll(tagStack[..i - 1]));
          return;
        }
        AvoidsSnoc(before.out, Close(e.name, e.qname));
        PassedChain(t0, CloseAll(tagStack[i..]), before, [Close(e.name, e.qname)], sink.Now());
        i := i - 1;
      }
      assert tagStack[0..] == tagStack;
      err := None;
    }

    method ReopenAllTags()
      requires Valid()
      modifies sink
      ensures Valid()
      ensures Passed(old(sink.Now()), OpenAll(tagStack), sink.Now())
    {
      var t0 := sink.Now();
      assert tagStack[..0] == [];
      for i := 0 to |tagStack|
        invariant sink.Valid() && Avoids(sink.out, IsPb)
        invariant Passed(t0, OpenAll(tagStack[..i]), sink.Now())
      {
        var e := tagStack[i];
        var before := sink.Now();
        sink.StartElementNS(e.name, e.qname, e.attrs);
        AvoidsSnoc(before.out, Open(e.name, e.qname, e.attrs));
        assert tagStack[..i + 1][..i] == tagStack[..i];
        PassedChain(t0, OpenAll(tagStack[..i]), before, [Open(e.name, e.qname, e.attrs)], sink.Now());
      }
      assert tagStack[..|tagStack|] == tagStack;
    }
  }

  lemma AvoidsSnoc(out: seq<Event>, ev: Event)
    requires Avoids(out, IsPb)
    requires (ev.Open? || ev.Close?) ==> ev.qname != "pb"
    ensures Avoids(out + [ev], IsPb)
  {
    AvoidsConcat(out, [ev], IsPb);
  }

  /** `xml_to_html_root` up to the XSLT step: the stream through a fresh pager. */
  method Paginate(clearOnTextEnd: bool, input: seq<Event>) returns (out: seq<Event>, err: Option<Failure>)
    ensures Avoids(out, IsPb)
    ensures Feed([], out).Some?
    ensures err.None? <==> Run(clearOnTextEnd, Initial, input).Some?
    ensures err.None? ==> out == Run(clearOnTextEnd, Initial, input).value.trace.out
  {
    var pager := new TEIPager(clearOnTextEnd);
    var i := 0;
    while i < |input|
      invariant 0 <= i <= |input|
      invariant fresh(pager.sink) && pager.Valid() && pager.clearOnTextEnd == clearOnTextEnd
      invariant Run(clearOnTextEnd, Initial, input) == Run(clearOnTextEnd, pager.State(), input[i..])
    {
      assert input[i..] == [input[i]] + input[i + 1..];
      err := pager.HandleEvent(input[i], input[i + 1..]);
      if err.Some? {
        out := pager.sink.out;
        return;
      }
      i := i + 1;
    }
    out := pager.sink.out;
    err := None;
  }
}
