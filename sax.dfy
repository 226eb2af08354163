/**
 * The event stream the rewriters consume and produce, and the tree-building
 * end they write into.
 *
 * lxml's `sax.saxify` walks a tree and calls `startElementNS`,
 * `endElementNS` and `characters` on a handler; a rewriter is such a handler
 * that forwards a different sequence of calls to lxml's
 * `ElementTreeContentHandler`, which builds the output tree. That builder is
 * foreign code: here it is an abstract stack of open element names (`Sink`)
 * that accepts a close only when it names the innermost open element, plus the
 * trace of everything it accepted. `AugmentedHandler` is the repository's
 * subclass that keeps its own list of open tags to word better errors.
 */
module Sax {
  import opened Wrappers

  /** A SAX name: namespace URI (or none) and local name. Attribute keys have the same shape. */
  datatype NsName = NsName(uri: Option<string>, local: string)

  /** Attributes in insertion order, keyed by `(namespace, key)` as lxml.sax passes them. */
  type Attrs = seq<(NsName, string)>

  /** A name outside any namespace, as the helpers `startElement`/`endElement` build it. */
  function Plain(local: string): NsName {
    NsName(None, local)
  }

  /** `{(None, key): val for key, val in attributes.items()}`. */
  function PlainAttrs(pairs: seq<(string, string)>): (r: Attrs)
    ensures |r| == |pairs|
    ensures forall i :: 0 <= i < |r| ==> r[i] == (Plain(pairs[i].0), pairs[i].1)
    decreases |pairs|
  {
    if |pairs| == 0 then [] else [(Plain(pairs[0].0), pairs[0].1)] + PlainAttrs(pairs[1..])
  }

  datatype Event =
    | Open(name: NsName, qname: string, attrs: Attrs)
    | Close(name: NsName, qname: string)
    | Text(content: string)

  /** Every element event in `evs` has a qualified name that `bad` rejects. */
  predicate Avoids(evs: seq<Event>, bad: string -> bool) {
    forall i :: 0 <= i < |evs| ==> (evs[i].Open? || evs[i].Close?) ==> !bad(evs[i].qname)
  }

  /** Why a rewriting pass aborts. */
  datatype Failure =
    /** The tree builder was asked to close something other than its innermost open element. */
    | UnexpectedClose(name: NsName)
    /** The augmented handler's re-raised error: the tag, the last opened tag if any, and the open tags. */
    | CloseRejected(qname: string, lastOpened: Option<string>, openTags: seq<string>)
    /** The pager's re-raised error with the page and line appended. */
    | AtPosition(cause: Failure, page: int, line: int)
    /** A column break whose innermost open element is not a `div`. */
    | ColumnBreakOutsideDiv(page: int, line: int)
    /** Python's IndexError: `pop()` or `[-1]` on an empty tag stack. */
    | EmptyTagStack

  /** The builder accepts closing `name` on top of `open`. */
  predicate Accepts(open: seq<NsName>, name: NsName) {
    |open| > 0 && open[|open| - 1] == name
  }

  /**
   * The builder's stack after a sequence of events, or None when some close
   * does not match the innermost open element.
   */
  function Feed(open: seq<NsName>, evs: seq<Event>): Option<seq<NsName>>
    decreases |evs|
  {
    if |evs| == 0 then Some(open)
    else match evs[0]
      case Open(n, _, _) => Feed(open + [n], evs[1..])
      case Close(n, _) => if Accepts(open, n) then Feed(open[..|open| - 1], evs[1..]) else None
      case Text(_) => Feed(open, evs[1..])
  }

  /** Feeding two pieces one after the other is feeding their concatenation. */
  lemma {:induction false} FeedConcat(open: seq<NsName>, a: seq<Event>, b: seq<Event>)
    ensures Feed(open, a + b) == (if Feed(open, a).Some? then Feed(Feed(open, a).value, b) else None)
    decreases |a|
  {
    if |a| == 0 {
      assert a + b == b;
    } else {
      assert (a + b)[1..] == a[1..] + b;
      match a[0]
      case Open(n, _, _) => FeedConcat(open + [n], a[1..], b);
      case Close(n, _) =>
        if Accepts(open, n) {
          FeedConcat(open[..|open| - 1], a[1..], b);
        }
      case Text(_) => FeedConcat(open, a[1..], b);
    }
  }

  /** What the builder does with one event. */
  lemma FeedSingle(open: seq<NsName>, e: Event)
    ensures e.Open? ==> Feed(open, [e]) == Some(open + [e.name])
    ensures e.Close? ==> Feed(open, [e]) == if Accepts(open, e.name) then Some(open[..|open| - 1]) else None
    ensures e.Text? ==> Feed(open, [e]) == Some(open)
  {
    assert [e][1..] == [];
  }

  /** The augmented handler's list of open qualified names after a sequence of accepted events. */
  function Track(tags: seq<string>, evs: seq<Event>): seq<string>
    decreases |evs|
  {
    if |evs| == 0 then tags
    else match evs[0]
      case Open(_, q, _) => Track(tags + [q], evs[1..])
      case Close(_, _) => Track(if |tags| > 0 then tags[..|tags| - 1] else tags, evs[1..])
      case Text(_) => Track(tags, evs[1..])
  }

  lemma {:induction false} TrackConcat(tags: seq<string>, a: seq<Event>, b: seq<Event>)
    ensures Track(tags, a + b) == Track(Track(tags, a), b)
    decreases |a|
  {
    if |a| == 0 {
      assert a + b == b;
    } else {
      assert (a + b)[1..] == a[1..] + b;
      match a[0]
      case Open(_, q, _) => TrackConcat(tags + [q], a[1..], b);
      case Close(_, _) => TrackConcat(if |tags| > 0 then tags[..|tags| - 1] else tags, a[1..], b);
      case Text(_) => TrackConcat(tags, a[1..], b);
    }
  }

  lemma TrackSingle(tags: seq<string>, e: Event)
    ensures e.Open? ==> Track(tags, [e]) == tags + [e.qname]
    ensures e.Close? ==> Track(tags, [e]) == if |tags| > 0 then tags[..|tags| - 1] else tags
    ensures e.Text? ==> Track(tags, [e]) == tags
  {
    assert [e][1..] == [];
  }

  /** While the builder accepts, the tracked list and the builder's stack grow and shrink together. */
  lemma {:induction false} TrackFollowsFeed(tags: seq<string>, open: seq<NsName>, evs: seq<Event>)
    requires |tags| == |open| && Feed(open, evs).Some?
    ensures |Track(tags, evs)| == |Feed(open, evs).value|
    decreases |evs|
  {
    if |evs| > 0 {
      match evs[0]
      case Open(n, q, _) => TrackFollowsFeed(tags + [q], open + [n], evs[1..]);
      case Close(n, _) => TrackFollowsFeed(tags[..|tags| - 1], open[..|open| - 1], evs[1..]);
      case Text(_) => TrackFollowsFeed(tags, open, evs[1..]);
    }
  }

  /** The builder's observable state: open elements and accepted trace. */
  datatype Trace = Trace(open: seq<NsName>, out: seq<Event>)

  /** Going from `t0` to `t1` the builder accepted exactly `evs`. */
  predicate Passed(t0: Trace, evs: seq<Event>, t1: Trace) {
    Feed(t0.open, evs) == Some(t1.open) && t1.out == t0.out + evs
  }

  lemma PassedChain(t0: Trace, a: seq<Event>, t1: Trace, b: seq<Event>, t2: Trace)
    requires Passed(t0, a, t1) && Passed(t1, b, t2)
    ensures Passed(t0, a + b, t2)
  {
    FeedConcat(t0.open, a, b);
  }

  /** The observable state of the augmented handler: builder stack, builder trace, `real_tag_stack`. */
  datatype Snapshot = Snapshot(open: seq<NsName>, out: seq<Event>, tags: seq<string>)

  /** Going from `s0` to `s1` the handler accepted exactly `evs`. */
  predicate Moved(s0: Snapshot, evs: seq<Event>, s1: Snapshot) {
    Feed(s0.open, evs) == Some(s1.open) && s1.out == s0.out + evs && s1.tags == Track(s0.tags, evs)
  }

  lemma MovedChain(s0: Snapshot, a: seq<Event>, s1: Snapshot, b: seq<Event>, s2: Snapshot)
    requires Moved(s0, a, s1) && Moved(s1, b, s2)
    ensures Moved(s0, a + b, s2)
  {
    FeedConcat(s0.open, a, b);
    TrackConcat(s0.tags, a, b);
  }

  /** Once the builder has accepted `a`, a rejection in `b` rejects `a + b`. */
  lemma FeedFailsAfter(open: seq<NsName>, a: seq<Event>, mid: seq<NsName>, b: seq<Event>)
    requires Feed(open, a) == Some(mid) && Feed(mid, b).None?
    ensures Feed(open, a + b).None?
  {
    FeedConcat(open, a, b);
  }

  /** A rejection in `a` rejects `a + b`. */
  lemma FeedFailsBefore(open: seq<NsName>, a: seq<Event>, b: seq<Event>)
    requires Feed(open, a).None?
    ensures Feed(open, a + b).None?
  {
    FeedConcat(open, a, b);
  }

  /**
   * The tree builder (lxml's `ElementTreeContentHandler`), abstracted to the
   * names of its open elements and the events it has accepted.
   */
  class Sink {
    var open: seq<NsName>
    var out: seq<Event>

    /** Everything accepted so far is a well-nested prefix ending with `open` still open. */
    ghost predicate Valid()
      reads this
    {
      Feed([], out) == Some(open)
    }

    ghost function Now(): Trace
      reads this
    {
      Trace(open, out)
    }

    constructor ()
      ensures Valid() && open == [] && out == []
    {
      open, out := [], [];
    }

    method StartElementNS(name: NsName, qname: string, attrs: Attrs)
      requires Valid()
      modifies this
      ensures Valid() && Passed(old(Now()), [Open(name, qname, attrs)], Now())
      ensures open == old(open) + [name]
    {
      FeedConcat([], out, [Open(name, qname, attrs)]);
      open, out := open + [name], out + [Open(name, qname, attrs)];
    }

    method EndElementNS(name: NsName, qname: string) returns (err: Option<Failure>)
      requires Valid()
      modifies this
      ensures Valid()
      ensures err.None? <==> Accepts(old(open), name)
      ensures err.None? ==> Passed(old(Now()), [Close(name, qname)], Now()) && open == old(open)[..|old(open)| - 1]
      ensures err.Some? ==> err == Some(UnexpectedClose(name)) && open == old(open) && out == old(out)
    {
      if Accepts(open, name) {
        FeedConcat([], out, [Close(name, qname)]);
        open, out := open[..|open| - 1], out + [Close(name, qname)];
        err := None;
      } else {
        err := Some(UnexpectedClose(name));
      }
    }

    method Characters(content: string)
      requires Valid()
      modifies this
      ensures Valid() && Passed(old(Now()), [Text(content)], Now()) && open == old(open)
    {
      FeedConcat([], out, [Text(content)]);
      out := out + [Text(content)];
    }
  }

  /**
   * `AugmentedContentHandler`: the builder plus `real_tag_stack`, the
   * qualified names of the open tags, pushed on every open and popped on every
   * close the builder accepts. A rejected close is re-raised as
   * `CloseRejected`, naming the last opened tag or saying none were opened;
   * with `reraiseOriginal` (the xslt_magic.py revision) it prints that and
   * re-raises the builder's own error.
   */
  class AugmentedHandler {
    const sink: Sink
    const reraiseOriginal: bool
    var realTagStack: seq<string>

    ghost predicate Valid()
      reads this, sink
    {
      sink.Valid() && |realTagStack| == |sink.open|
    }

    ghost function Snap(): Snapshot
      reads this, sink
    {
      Snapshot(sink.open, sink.out, realTagStack)
    }

    constructor (reraiseOriginal: bool)
      ensures Valid() && fresh(sink)
      ensures Snap() == Snapshot([], [], [])
      ensures this.reraiseOriginal == reraiseOriginal
    {
      sink := new Sink();
      this.reraiseOriginal := reraiseOriginal;
      realTagStack := [];
    }

    method StartElementNS(name: NsName, qname: string, attrs: Attrs)
      requires Valid()
      modifies this, sink
      ensures Valid()
      ensures Moved(old(Snap()), [Open(name, qname, attrs)], Snap())
    {
      realTagStack := realTagStack + [qname];
      sink.StartElementNS(name, qname, attrs);
      TrackSingle(old(realTagStack), Open(name, qname, attrs));
    }

    method EndElementNS(name: NsName, qname: string) returns (err: Option<Failure>)
      requires Valid()
      modifies this, sink
      ensures Valid()
      ensures err.None? <==> Accepts(old(sink.open), name)
      ensures err.None? ==> Moved(old(Snap()), [Close(name, qname)], Snap())
      ensures err.Some? ==> Snap() == old(Snap())
      ensures err.Some? && reraiseOriginal ==> err == Some(UnexpectedClose(name))
      ensures err.Some? && !reraiseOriginal ==> err == Some(Rejection(qname, old(realTagStack)))
    {
      err := sink.EndElementNS(name, qname);
      if err.None? {
        realTagStack := realTagStack[..|realTagStack| - 1];
        TrackSingle(old(realTagStack), Close(name, qname));
      } else if !reraiseOriginal {
        err := Some(Rejection(qname, realTagStack));
      }
    }

    /** `startElement(name, attributes)`: an element outside any namespace. */
    method StartElement(name: string, attrs: seq<(string, string)>)
      requires Valid()
      modifies this, sink
      ensures Valid()
      ensures Moved(old(Snap()), [Open(Plain(name), name, PlainAttrs(attrs))], Snap())
    {
      StartElementNS(Plain(name), name, PlainAttrs(attrs));
    }

    /** `endElement(name)`. */
    method EndElement(name: string) returns (err: Option<Failure>)
      requires Valid()
      modifies this, sink
      ensures Valid()
      ensures err.None? <==> Accepts(old(sink.open), Plain(name))
      ensures err.None? ==> Moved(old(Snap()), [Close(Plain(name), name)], Snap())
      ensures err.Some? ==> Snap() == old(Snap())
      ensures err.Some? && !reraiseOriginal ==> err == Some(Rejection(name, old(realTagStack)))
    {
      err := EndElementNS(Plain(name), name);
    }

    method Characters(content: string)
      requires Valid()
      modifies this, sink
      ensures Valid()
      ensures Moved(old(Snap()), [Text(content)], Snap())
    {
      sink.Characters(content);
      TrackSingle(realTagStack, Text(content));
    }
  }

  /** The augmented handler's error for a rejected close of `qname` while `tags` are open. */
  function Rejection(qname: string, tags: seq<string>): (f: Failure)
    ensures f.CloseRejected? && f.qname == qname && f.openTags == tags
    ensures f.lastOpened.None? <==> tags == []
    ensures tags != [] ==> f.lastOpened == Some(tags[|tags| - 1])
  {
    CloseRejected(qname, if tags == [] then None else Some(tags[|tags| - 1]), tags)
  }
}
