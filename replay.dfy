/**
 * Closing every tracked element, innermost first, and reopening them all,
 * outermost first, with the same attributes: the `closeAllTags` /
 * `reopenAllTags` pair every pager revision uses at a page break.
 */
module Replay {
  import opened Wrappers
  import opened Sax

  /** One `tag_stack` entry: `(ns_name, qname, attributes)`. */
  datatype Entry = Entry(name: NsName, qname: string, attrs: Attrs)

  function Names(ts: seq<Entry>): (r: seq<NsName>)
    ensures |r| == |ts|
  {
    seq(|ts|, i requires 0 <= i < |ts| => ts[i].name)
  }

  function QNames(ts: seq<Entry>): (r: seq<string>)
    ensures |r| == |ts|
  {
    seq(|ts|, i requires 0 <= i < |ts| => ts[i].qname)
  }

  predicate IsSuffix<T(==)>(s: seq<T>, t: seq<T>) {
    |s| <= |t| && t[|t| - |s|..] == s
  }

  /** The closes `closeAllTags` sends: `reversed(tag_stack)`. */
  function CloseAll(ts: seq<Entry>): seq<Event>
    decreases |ts|
  {
    if |ts| == 0 then [] else CloseAll(ts[1..]) + [Close(ts[0].name, ts[0].qname)]
  }

  /** The opens `reopenAllTags` sends: `tag_stack` in order. */
  function OpenAll(ts: seq<Entry>): seq<Event>
    decreases |ts|
  {
    if |ts| == 0 then [] else OpenAll(ts[..|ts| - 1]) + [Open(ts[|ts| - 1].name, ts[|ts| - 1].qname, ts[|ts| - 1].attrs)]
  }

  /** Close-all sends one close per entry, the innermost entry first. */
  lemma {:induction false} CloseAllOrder(ts: seq<Entry>)
    ensures |CloseAll(ts)| == |ts|
    ensures forall i :: 0 <= i < |ts| ==> CloseAll(ts)[i] == Close(ts[|ts| - 1 - i].name, ts[|ts| - 1 - i].qname)
    decreases |ts|
  {
    if |ts| > 0 {
      CloseAllOrder(ts[1..]);
    }
  }

  /** Reopen-all sends one open per entry, outermost first, with the entry's own attributes. */
  lemma {:induction false} OpenAllOrder(ts: seq<Entry>)
    ensures |OpenAll(ts)| == |ts|
    ensures forall i :: 0 <= i < |ts| ==> OpenAll(ts)[i] == Open(ts[i].name, ts[i].qname, ts[i].attrs)
    decreases |ts|
  {
    if |ts| > 0 {
      OpenAllOrder(ts[..|ts| - 1]);
    }
  }

  /** Closing `a + b` closes `b` first, then `a`. */
  lemma {:induction false} CloseAllAppend(a: seq<Entry>, b: seq<Entry>)
    ensures CloseAll(a + b) == CloseAll(b) + CloseAll(a)
    decreases |a|
  {
    if |a| == 0 {
      assert a + b == b;
    } else {
      assert (a + b)[1..] == a[1..] + b;
      CloseAllAppend(a[1..], b);
    }
  }

  /**
   * The builder accepts a close-all exactly when the entries are its
   * innermost open elements, and it then has just the elements below them open.
   */
  lemma {:induction false} FeedCloseAll(open: seq<NsName>, ts: seq<Entry>)
    ensures Feed(open, CloseAll(ts)) == if IsSuffix(Names(ts), open) then Some(open[..|open| - |ts|]) else None
    decreases |ts|
  {
    if |ts| > 0 {
      var rest := ts[1..];
      var c := Close(ts[0].name, ts[0].qname);
      FeedCloseAll(open, rest);
      assert CloseAll(ts) == CloseAll(rest) + [c];
      FeedConcat(open, CloseAll(rest), [c]);
      assert Names(ts) == [ts[0].name] + Names(rest);
      if IsSuffix(Names(rest), open) {
        var o := open[..|open| - |rest|];
        FeedSingle(o, c);
        if IsSuffix(Names(ts), open) {
          assert open[|open| - |ts|] == ts[0].name;
          assert o[..|o| - 1] == open[..|open| - |ts|];
        }
      }
    } else {
      assert open[..|open| - |ts|] == open;
    }
  }

  /** Reopening is always accepted and puts the entries back on top. */
  lemma {:induction false} FeedOpenAll(open: seq<NsName>, ts: seq<Entry>)
    ensures Feed(open, OpenAll(ts)) == Some(open + Names(ts))
    decreases |ts|
  {
    if |ts| > 0 {
      var init := ts[..|ts| - 1];
      var o := Open(ts[|ts| - 1].name, ts[|ts| - 1].qname, ts[|ts| - 1].attrs);
      FeedOpenAll(open, init);
      FeedConcat(open, OpenAll(init), [o]);
      FeedSingle(open + Names(init), o);
      assert OpenAll(ts) == OpenAll(init) + [o];
      assert Names(ts) == Names(init) + [ts[|ts| - 1].name];
      assert open + Names(ts) == (open + Names(init)) + [ts[|ts| - 1].name];
    } else {
      assert open + Names(ts) == open;
    }
  }

  /** Closing then reopening the entries gives back the builder's open elements unchanged. */
  lemma ReplayRestores(pre: seq<NsName>, ts: seq<Entry>)
    ensures Feed(pre + Names(ts), CloseAll(ts) + OpenAll(ts)) == Some(pre + Names(ts))
  {
    var open := pre + Names(ts);
    FeedCloseAll(open, ts);
    assert open[|open| - |ts|..] == Names(ts);
    assert open[..|open| - |ts|] == pre;
    FeedConcat(open, CloseAll(ts), OpenAll(ts));
    FeedOpenAll(pre, ts);
  }

  /**
   * Closing the entries, sending `middle`, and reopening them is accepted
   * exactly when the entries are innermost and `middle` is accepted below
   * them; the entries then end up on top of what `middle` left open.
   */
  lemma FeedReplay(open: seq<NsName>, ts: seq<Entry>, middle: seq<Event>)
    ensures !IsSuffix(Names(ts), open) ==> Feed(open, CloseAll(ts) + middle + OpenAll(ts)).None?
    ensures IsSuffix(Names(ts), open) ==>
      var below := open[..|open| - |ts|];
      Feed(open, CloseAll(ts) + middle + OpenAll(ts))
        == if Feed(below, middle).Some? then Some(Feed(below, middle).value + Names(ts)) else None
  {
    var rest := middle + OpenAll(ts);
    assert CloseAll(ts) + middle + OpenAll(ts) == CloseAll(ts) + rest;
    FeedConcat(open, CloseAll(ts), rest);
    FeedCloseAll(open, ts);
    if IsSuffix(Names(ts), open) {
      var below := open[..|open| - |ts|];
      assert Feed(open, CloseAll(ts) + rest) == Feed(below, rest);
      FeedConcat(below, middle, OpenAll(ts));
      if Feed(below, middle).Some? {
        FeedOpenAll(Feed(below, middle).value, ts);
      }
    }
  }

  lemma SuffixCons<T>(x: T, s: seq<T>, t: seq<T>)
    ensures IsSuffix([x] + s, t) <==> IsSuffix(s, t) && |t| > |s| && t[|t| - |s| - 1] == x
  {
    if IsSuffix(s, t) && |t| > |s| {
      assert t[|t| - |s| - 1..] == [t[|t| - |s| - 1]] + t[|t| - |s|..];
    }
    if IsSuffix([x] + s, t) {
      assert t[|t| - |s|..] == t[|t| - |s| - 1..][1..];
    }
  }

  /** Close-all pops one tracked qualified name per entry. */
  lemma {:induction false} TrackCloseAll(tags: seq<string>, ts: seq<Entry>)
    requires |ts| <= |tags|
    ensures Track(tags, CloseAll(ts)) == tags[..|tags| - |ts|]
    decreases |ts|
  {
    if |ts| > 0 {
      TrackCloseAll(tags, ts[1..]);
      TrackConcat(tags, CloseAll(ts[1..]), [Close(ts[0].name, ts[0].qname)]);
      TrackSingle(tags[..|tags| - |ts[1..]|], Close(ts[0].name, ts[0].qname));
      var t := tags[..|tags| - |ts[1..]|];
      assert t[..|t| - 1] == tags[..|tags| - |ts|];
    }
  }

  /** Reopen-all pushes the entries' qualified names in order. */
  lemma {:induction false} TrackOpenAll(tags: seq<string>, ts: seq<Entry>)
    ensures Track(tags, OpenAll(ts)) == tags + QNames(ts)
    decreases |ts|
  {
    if |ts| > 0 {
      var init := ts[..|ts| - 1];
      TrackOpenAll(tags, init);
      TrackConcat(tags, OpenAll(init), [Open(ts[|ts| - 1].name, ts[|ts| - 1].qname, ts[|ts| - 1].attrs)]);
      TrackSingle(tags + QNames(init), Open(ts[|ts| - 1].name, ts[|ts| - 1].qname, ts[|ts| - 1].attrs));
      assert QNames(ts) == QNames(init) + [ts[|ts| - 1].qname];
    }
  }

  /** No entry has a qualified name that `bad` flags. */
  predicate EntriesAvoid(ts: seq<Entry>, bad: string -> bool) {
    forall i :: 0 <= i < |ts| ==> !bad(ts[i].qname)
  }

  /** Replaying entries that avoid `bad` emits no event that `bad` flags. */
  lemma ReplayAvoids(ts: seq<Entry>, bad: string -> bool)
    requires EntriesAvoid(ts, bad)
    ensures Avoids(CloseAll(ts), bad) && Avoids(OpenAll(ts), bad)
  {
    CloseAllOrder(ts);
    OpenAllOrder(ts);
  }

  lemma AvoidsConcat(a: seq<Event>, b: seq<Event>, bad: string -> bool)
    requires Avoids(a, bad) && Avoids(b, bad)
    ensures Avoids(a + b, bad)
  {
    forall i | 0 <= i < |a + b| && ((a + b)[i].Open? || (a + b)[i].Close?)
      ensures !bad((a + b)[i].qname)
    {
      if i >= |a| {
        assert (a + b)[i] == b[i - |a|];
      }
    }
  }

  /** An open of a `div` whose `class` attribute is `cls`. */
  predicate IsDivOfClass(cls: string, ev: Event) {
    ev.Open? && ev.qname == "div" && Get(ev.attrs, Plain("class")) == Some(cls)
  }

  /** A tracked `div` whose `class` attribute is `cls`. */
  predicate EntryOfClass(cls: string, e: Entry) {
    e.qname == "div" && Get(e.attrs, Plain("class")) == Some(cls)
  }

  /** No entry of `ts` is a `div` of class `cls`. */
  predicate NoneOfClass(cls: string, ts: seq<Entry>) {
    forall i :: 0 <= i < |ts| ==> !EntryOfClass(cls, ts[i])
  }

  /** The number of `div`s of class `cls` that `evs` opens. */
  function DivsOfClass(cls: string, evs: seq<Event>): nat
    decreases |evs|
  {
    if |evs| == 0 then 0 else (if IsDivOfClass(cls, evs[0]) then 1 else 0) + DivsOfClass(cls, evs[1..])
  }

  lemma {:induction false} DivsOfClassConcat(cls: string, a: seq<Event>, b: seq<Event>)
    ensures DivsOfClass(cls, a + b) == DivsOfClass(cls, a) + DivsOfClass(cls, b)
    decreases |a|
  {
    if |a| == 0 {
      assert a + b == b;
    } else {
      assert (a + b)[1..] == a[1..] + b;
      DivsOfClassConcat(cls, a[1..], b);
    }
  }

  /** Closing and reopening entries none of which is a `div` of class `cls` opens no such `div`. */
  lemma {:induction false} ReplayOpensNoDivOfClass(cls: string, ts: seq<Entry>)
    requires NoneOfClass(cls, ts)
    ensures DivsOfClass(cls, CloseAll(ts)) == 0 && DivsOfClass(cls, OpenAll(ts)) == 0
    decreases |ts|
  {
    if |ts| > 0 {
      var last := ts[|ts| - 1];
      ReplayOpensNoDivOfClass(cls, ts[..|ts| - 1]);
      ReplayOpensNoDivOfClass(cls, ts[1..]);
      DivsOfClassConcat(cls, CloseAll(ts[1..]), [Close(ts[0].name, ts[0].qname)]);
      DivsOfClassConcat(cls, OpenAll(ts[..|ts| - 1]), [Open(last.name, last.qname, last.attrs)]);
      assert !EntryOfClass(cls, last);
    }
  }

  /** Replaying a stack whose outermost entry alone is a `div` of class `cls` reopens exactly one such `div`. */
  lemma {:induction false} ReplayOpensOneDivOfClass(cls: string, e: Entry, rest: seq<Entry>)
    requires EntryOfClass(cls, e) && NoneOfClass(cls, rest)
    ensures DivsOfClass(cls, CloseAll([e] + rest) + OpenAll([e] + rest)) == 1
    decreases |rest|
  {
    var ts := [e] + rest;
    CloseAllOpensNothing(cls, ts);
    DivsOfClassConcat(cls, CloseAll(ts), OpenAll(ts));
    if |rest| == 0 {
      assert OpenAll(ts) == OpenAll([]) + [Open(e.name, e.qname, e.attrs)];
      assert OpenAll(ts)[1..] == [];
    } else {
      var last := rest[|rest| - 1];
      assert ts[..|ts| - 1] == [e] + rest[..|rest| - 1];
      ReplayOpensOneDivOfClass(cls, e, rest[..|rest| - 1]);
      CloseAllOpensNothing(cls, ts[..|ts| - 1]);
      DivsOfClassConcat(cls, CloseAll(ts[..|ts| - 1]), OpenAll(ts[..|ts| - 1]));
      DivsOfClassConcat(cls, OpenAll(ts[..|ts| - 1]), [Open(last.name, last.qname, last.attrs)]);
      assert !EntryOfClass(cls, rest[|rest| - 1]);
      assert [Open(last.name, last.qname, last.attrs)][1..] == [];
    }
  }

  /** Closing tags opens no `div`. */
  lemma {:induction false} CloseAllOpensNothing(cls: string, ts: seq<Entry>)
    ensures DivsOfClass(cls, CloseAll(ts)) == 0
    decreases |ts|
  {
    if |ts| > 0 {
      CloseAllOpensNothing(cls, ts[1..]);
      DivsOfClassConcat(cls, CloseAll(ts[1..]), [Close(ts[0].name, ts[0].qname)]);
      assert [Close(ts[0].name, ts[0].qname)][1..] == [];
    }
  }
}
