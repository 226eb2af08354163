/**
 * The gloss inserter of flexify.py. `FLExParser` sits in front of the tree
 * builder: it wraps every `<mark>` in a popover `span`, collects the text
 * inside the mark as the current word, and after the mark emits a hidden
 * `span` holding a table with the word's FLEx gloss, found by `lookup` in a
 * dictionary keyed by normalised word.
 */
module Flexify {
  import opened Wrappers
  import opened Text
  import opened Common
  import opened Sax

  /** A FLEx gloss as the dictionary stores it; `Empty` is the JSON object `{}`. */
  datatype Flex = Empty | Gloss(name: string, morphs: seq<string>, lexGlosses: seq<string>, enGloss: string)

  /** One occurrence of a word in the FLEx export: the section it was found in and its gloss. */
  datatype Record = Record(section: string, flex: Flex)

  /** Normalised word to the list of its occurrences, in export order. */
  type FlexDict = map<string, seq<Record>>

  /** `flex_dict.get(word, [])`. */
  function Records(dict: FlexDict, key: string): seq<Record> {
    if key in dict then dict[key] else []
  }

  // ---------------------------------------------------------------------
  // lookup
  // ---------------------------------------------------------------------

  /** The index of the first record whose section is exactly `section`. */
  function FirstExact(recs: seq<Record>, section: string): (r: Option<nat>)
    ensures r.Some? ==> r.value < |recs| && recs[r.value].section == section
    ensures r.Some? ==> forall j :: 0 <= j < r.value ==> recs[j].section != section
    ensures r.None? ==> forall j :: 0 <= j < |recs| ==> recs[j].section != section
    decreases |recs|
  {
    if |recs| == 0 then None
    else if recs[0].section == section then Some(0)
    else match FirstExact(recs[1..], section)
      case None => None
      case Some(k) => Some(k + 1)
  }

  /**
   * A record that can win on a partial match: its section is a prefix of the
   * current one and longer than the empty initial best match.
   */
  predicate Hit(rec: Record, section: string) {
    |rec.section| > 0 && StartsWith(section, rec.section)
  }

  /** Among the first `n` records, `i` is a hit, strictly longer than every earlier hit and at least as long as every later one. */
  predicate IsLongest(recs: seq<Record>, n: nat, section: string, i: nat)
    requires n <= |recs|
  {
    i < n && Hit(recs[i], section)
    && (forall j :: 0 <= j < i && Hit(recs[j], section) ==> |recs[j].section| < |recs[i].section|)
    && (forall j :: i < j < n && Hit(recs[j], section) ==> |recs[j].section| <= |recs[i].section|)
  }

  /** At most one record is the longest, earliest partial match. */
  lemma LongestUnique(recs: seq<Record>, n: nat, section: string, i: nat, k: nat)
    requires n <= |recs| && IsLongest(recs, n, section, i) && IsLongest(recs, n, section, k)
    ensures i == k
  {
  }

  /** The longest partial match, the earliest one on a tie. */
  function Longest(recs: seq<Record>, section: string): (r: Option<nat>)
    ensures r.Some? ==> IsLongest(recs, |recs|, section, r.value)
    ensures r.None? ==> forall j :: 0 <= j < |recs| ==> !Hit(recs[j], section)
    decreases |recs|
  {
    if |recs| == 0 then None
    else
      var rest := Longest(recs[1..], section);
      if Hit(recs[0], section) && (rest.None? || |recs[1..][rest.value].section| <= |recs[0].section|) then Some(0)
      else if rest.None? then None
      else Some(rest.value + 1)
  }

  /** What `lookup` answers for a word's records: the first exact section, else the longest partial match, else `{}`. */
  function Choice(recs: seq<Record>, section: string): Flex {
    match FirstExact(recs, section)
    case Some(i) => recs[i].flex
    case None =>
      match Longest(recs, section)
      case Some(i) => recs[i].flex
      case None => Empty
  }

  /** The gloss the parser attaches to `word` found in `section`. */
  function LookedUp(dict: FlexDict, word: string, section: string): Flex {
    Choice(Records(dict, Normalize(word)), section)
  }

  /**
   * `lookup`: normalise the word, then scan its records once, returning at
   * the first exact section and otherwise remembering the strictly longest
   * partial match seen so far.
   */
  method Lookup(dict: FlexDict, word: string, section: string) returns (r: Flex)
    ensures r == LookedUp(dict, word, section)
  {
    var key := StripAccentsAndSpaces(word);
    var recs := if key in dict then dict[key] else [];
    r := Scan(recs, section);
  }

  /** The loop of `lookup` over one word's records. */
  method Scan(recs: seq<Record>, section: string) returns (r: Flex)
    ensures r == Choice(recs, section)
  {
    var bestMatch := "";
    r := Empty;
    ghost var best: Option<nat> := None;
    var i := 0;
    while i < |recs|
      invariant 0 <= i <= |recs|
      invariant forall j :: 0 <= j < i ==> recs[j].section != section
      invariant best.None? ==> bestMatch == "" && r == Empty && forall j :: 0 <= j < i ==> !Hit(recs[j], section)
      invariant best.Some? ==> IsLongest(recs, i, section, best.value)
      invariant best.Some? ==> bestMatch == recs[best.value].section && r == recs[best.value].flex
    {
      var found := recs[i];
      if found.section == section {
        var first := FirstExact(recs, section);
        assert first == Some(i);
        r := found.flex;
        return;
      } else if StartsWith(section, found.section) {
        if |found.section| > |bestMatch| {
          bestMatch := found.section;
          r := found.flex;
          best := Some(i);
        }
      }
      i := i + 1;
    }
    assert FirstExact(recs, section).None?;
    var longest := Longest(recs, section);
    if best.Some? {
      LongestUnique(recs, |recs|, section, best.value, longest.value);
    }
  }

  /** With no exact section, a record with an empty section is never chosen, whatever the current section. */
  lemma EmptySectionNeverPartial(recs: seq<Record>, section: string, i: nat)
    requires i < |recs| && recs[i].section == "" && section != ""
    ensures FirstExact(recs, section).None? ==> Longest(recs, section) != Some(i)
  {
  }

  /** A word the dictionary does not know gets the empty gloss. */
  lemma UnknownWord(dict: FlexDict, word: string, section: string)
    requires Normalize(word) !in dict
    ensures LookedUp(dict, word, section) == Empty
  {
  }

  // ---------------------------------------------------------------------
  // Emitted markup
  // ---------------------------------------------------------------------

  const Span: NsName := Plain("span")
  const WrapperAttrs: seq<(string, string)> := [("class", "popover-markup inline")]
  const ContentAttrs: seq<(string, string)> := [("class", "content hide inline")]

  /** `with self.E(tag, attrs): ...`: an element with plain names around `inner`. */
  function Element(tag: string, attrs: seq<(string, string)>, inner: seq<Event>): seq<Event> {
    [Open(Plain(tag), tag, PlainAttrs(attrs))] + inner + [Close(Plain(tag), tag)]
  }

  function Cell(entry: string): seq<Event> {
    Element("td", [], [Text(entry)])
  }

  /** The cells of one table row, one `td` per entry. */
  function Cells(entries: seq<string>): seq<Event>
    decreases |entries|
  {
    if |entries| == 0 then [] else Cells(entries[..|entries| - 1]) + Cell(entries[|entries| - 1])
  }

  /** `createTableRow`. */
  function TableRow(entries: seq<string>): seq<Event> {
    Element("tr", [], Cells(entries))
  }

  /** Python's `any(strings)`: some entry is non-empty. */
  predicate AnyNonEmpty(ss: seq<string>) {
    exists i :: 0 <= i < |ss| && ss[i] != ""
  }

  /** `createFLExWord`: nothing for `{}`, otherwise the gloss table. */
  function GlossTable(f: Flex): seq<Event> {
    if f.Empty? then []
    else Element("table", [],
      Element("caption", [], [Text(f.name)])
      + (if AnyNonEmpty(f.morphs) && AnyNonEmpty(f.lexGlosses) then TableRow(f.morphs) + TableRow(f.lexGlosses) else [])
      + Element("td", [("colspan", NatToString(|f.morphs|))], [Text("'" + f.enGloss + "'")]))
  }

  /** The hidden annotation emitted after a non-empty mark. */
  function Annotation(f: Flex): seq<Event> {
    Element("span", ContentAttrs, GlossTable(f))
  }

  /** What an open produces: a `mark` is preceded by its popover wrapper. */
  function OpenEvents(name: NsName, qname: string, attrs: Attrs): seq<Event> {
    (if qname == "mark" then [Open(Span, "span", PlainAttrs(WrapperAttrs))] else []) + [Open(name, qname, attrs)]
  }

  /**
   * What a close produces: the close itself and, after a `mark`, the
   * annotation for a non-empty word and the close of the wrapper.
   */
  function CloseEvents(name: NsName, qname: string, word: string, looked: Flex): seq<Event> {
    [Close(name, qname)] + (if qname == "mark" then MarkTail(word, looked) else [])
  }

  /** What follows the close of a `mark`: the annotation for a non-empty word, then the wrapper's close. */
  function MarkTail(word: string, looked: Flex): seq<Event> {
    (if word != "" then Annotation(looked) else []) + [Close(Span, "span")]
  }

  /** The section after an open: a `div` with a non-empty `id` sets it, with every `".0"` replaced by `"."`. */
  function NewSection(section: string, qname: string, attrs: Attrs): string {
    if qname == "div" then
      match Get(attrs, Plain("id"))
      case Some(id) => if id != "" then Replace(id, ".0", ".") else section
      case None => section
    else section
  }

  lemma ElementBalanced(open: seq<NsName>, tag: string, attrs: seq<(string, string)>, inner: seq<Event>)
    requires Feed(open + [Plain(tag)], inner) == Some(open + [Plain(tag)])
    ensures Feed(open, Element(tag, attrs, inner)) == Some(open)
  {
    var o := Open(Plain(tag), tag, PlainAttrs(attrs));
    var c := Close(Plain(tag), tag);
    FeedConcat(open, [o] + inner, [c]);
    FeedConcat(open, [o], inner);
    FeedSingle(open, o);
    FeedSingle(open + [Plain(tag)], c);
    assert (open + [Plain(tag)])[..|open|] == open;
  }

  /** A row's cells leave the builder where they found it. */
  lemma {:induction false} CellsBalanced(open: seq<NsName>, entries: seq<string>)
    ensures Feed(open, Cells(entries)) == Some(open)
    decreases |entries|
  {
    if |entries| > 0 {
      var e := entries[|entries| - 1];
      CellsBalanced(open, entries[..|entries| - 1]);
      FeedSingle(open + [Plain("td")], Text(e));
      ElementBalanced(open, "td", [], [Text(e)]);
      FeedConcat(open, Cells(entries[..|entries| - 1]), Cell(e));
    }
  }

  /** `createTableRow` emits exactly one `td` per entry, holding that entry, in order. */
  lemma {:induction false} CellsLayout(entries: seq<string>)
    ensures |Cells(entries)| == 3 * |entries|
    ensures forall i :: 0 <= i < |entries| ==> Cells(entries)[3 * i..3 * i + 3] == Cell(entries[i])
    decreases |entries|
  {
    if |entries| > 0 {
      var init := entries[..|entries| - 1];
      CellsLayout(init);
      forall i | 0 <= i < |entries|
        ensures Cells(entries)[3 * i..3 * i + 3] == Cell(entries[i])
      {
        if i < |init| {
          assert Cells(entries)[3 * i..3 * i + 3] == Cells(init)[3 * i..3 * i + 3];
          assert init[i] == entries[i];
        } else {
          assert Cells(entries)[3 * i..3 * i + 3] == Cell(entries[|entries| - 1]);
        }
      }
    }
  }

  /** The gloss table is well nested. */
  lemma GlossTableBalanced(open: seq<NsName>, f: Flex)
    ensures Feed(open, GlossTable(f)) == Some(open)
  {
    if f.Gloss? {
      var inTable := open + [Plain("table")];
      ghost var caption := Element("caption", [], [Text(f.name)]);
      var rows := if AnyNonEmpty(f.morphs) && AnyNonEmpty(f.lexGlosses) then TableRow(f.morphs) + TableRow(f.lexGlosses) else [];
      var span := Element("td", [("colspan", NatToString(|f.morphs|))], [Text("'" + f.enGloss + "'")]);
      FeedSingle(inTable + [Plain("caption")], Text(f.name));
      ElementBalanced(inTable, "caption", [], [Text(f.name)]);
      CellsBalanced(inTable + [Plain("tr")], f.morphs);
      CellsBalanced(inTable + [Plain("tr")], f.lexGlosses);
      ElementBalanced(inTable, "tr", [], Cells(f.morphs));
      ElementBalanced(inTable, "tr", [], Cells(f.lexGlosses));
      FeedConcat(inTable, TableRow(f.morphs), TableRow(f.lexGlosses));
      FeedSingle(inTable + [Plain("td")], Text("'" + f.enGloss + "'"));
      ElementBalanced(inTable, "td", [("colspan", NatToString(|f.morphs|))], [Text("'" + f.enGloss + "'")]);
      FeedConcat(inTable, caption, rows);
      FeedConcat(inTable, caption + rows, span);
      ElementBalanced(open, "table", [], caption + rows + span);
    }
  }

  /** The annotation emitted after a mark is well nested. */
  lemma AnnotationBalanced(open: seq<NsName>, f: Flex)
    ensures Feed(open, Annotation(f)) == Some(open)
  {
    GlossTableBalanced(open + [Plain("span")], f);
    ElementBalanced(open, "span", ContentAttrs, GlossTable(f));
  }

  /** An example: a div whose id is `2.01` puts the parser in section `2.1`. */
  lemma DivIdSection()
    ensures NewSection("", "div", [(Plain("id"), "2.01")]) == "2.1"
  {
    assert "2.01"[..2] == "2." && "2.01"[1..] == ".01";
    assert StartsWith(".01", ".0") && ".01"[2..] == "1";
    assert !StartsWith("1", ".0") && "1"[1..] == "";
    assert Replace("1", ".0", ".") == "1";
    assert Replace(".01", ".0", ".") == ".1";
  }

  // ---------------------------------------------------------------------
  // The input's own nesting
  // ---------------------------------------------------------------------

  /**
   * The elements of the input still open after `evs`, by namespaced and
   * qualified name, or `None` once a close does not match the innermost
   * open element in both names.
   */
  function Nesting(open: seq<(NsName, string)>, evs: seq<Event>): Option<seq<(NsName, string)>>
    decreases |evs|
  {
    if |evs| == 0 then Some(open)
    else match evs[0]
      case Open(n, q, _) => Nesting(open + [(n, q)], evs[1..])
      case Close(n, q) =>
        if |open| > 0 && open[|open| - 1] == (n, q) then Nesting(open[..|open| - 1], evs[1..]) else None
      case Text(_) => Nesting(open, evs[1..])
  }

  lemma {:induction false} NestingConcat(open: seq<(NsName, string)>, a: seq<Event>, b: seq<Event>)
    ensures Nesting(open, a + b) == (if Nesting(open, a).Some? then Nesting(Nesting(open, a).value, b) else None)
    decreases |a|
  {
    if |a| == 0 {
      assert a + b == b;
    } else {
      assert (a + b)[1..] == a[1..] + b;
      match a[0]
      case Open(n, q, _) => NestingConcat(open + [(n, q)], a[1..], b);
      case Close(n, q) =>
        if |open| > 0 && open[|open| - 1] == (n, q) {
          NestingConcat(open[..|open| - 1], a[1..], b);
        }
      case Text(_) => NestingConcat(open, a[1..], b);
    }
  }

  lemma NestingSingle(open: seq<(NsName, string)>, e: Event)
    ensures e.Open? ==> Nesting(open, [e]) == Some(open + [(e.name, e.qname)])
    ensures e.Close? && |open| > 0 && open[|open| - 1] == (e.name, e.qname) ==> Nesting(open, [e]) == Some(open[..|open| - 1])
    ensures e.Close? && !(|open| > 0 && open[|open| - 1] == (e.name, e.qname)) ==> Nesting(open, [e]).None?
    ensures e.Text? ==> Nesting(open, [e]) == Some(open)
  {
    assert [e][1..] == [];
  }

  /** The builder's stack for an input nesting: every `mark` sits on its wrapper `span`. */
  function Expand(open: seq<(NsName, string)>): seq<NsName>
    decreases |open|
  {
    if |open| == 0 then []
    else
      var last := open[|open| - 1];
      Expand(open[..|open| - 1]) + (if last.1 == "mark" then [Span] else []) + [last.0]
  }

  lemma ExpandSnoc(open: seq<(NsName, string)>, n: NsName, q: string)
    ensures Expand(open + [(n, q)]) == Expand(open) + (if q == "mark" then [Span] else []) + [n]
  {
    assert (open + [(n, q)])[..|open|] == open;
  }

  lemma ExpandPop(open: seq<(NsName, string)>)
    requires |open| > 0
    ensures var last := open[|open| - 1];
      Expand(open) == Expand(open[..|open| - 1]) + (if last.1 == "mark" then [Span] else []) + [last.0]
  {
  }

  /**
   * Closing the innermost input element: the builder accepts its close and,
   * for a `mark`, the close of the wrapper beneath it, which leaves the
   * builder's stack for the input's remaining elements.
   */
  lemma ClosingExpanded(open: seq<(NsName, string)>, name: NsName, qname: string)
    requires |open| > 0 && open[|open| - 1] == (name, qname)
    ensures var s := Expand(open); var rest := Expand(open[..|open| - 1]);
      Accepts(s, name)
      && (qname == "mark" ==> Accepts(s[..|s| - 1], Span) && s[..|s| - 2] == rest)
      && (qname != "mark" ==> s[..|s| - 1] == rest)
  {
    ExpandPop(open);
    var rest := Expand(open[..|open| - 1]);
    if qname == "mark" {
      assert Expand(open) == rest + [Span] + [name];
      assert Expand(open)[..|Expand(open)| - 1] == rest + [Span];
    }
  }

  /** Number of `mark` closes in a stream. */
  function MarkCloses(evs: seq<Event>): nat
    decreases |evs|
  {
    if |evs| == 0 then 0
    else MarkCloses(evs[..|evs| - 1]) + (if evs[|evs| - 1].Close? && evs[|evs| - 1].qname == "mark" then 1 else 0)
  }

  lemma {:induction false} MarkClosesPrefix(evs: seq<Event>, n: nat)
    requires n <= |evs|
    ensures MarkCloses(evs[..n]) <= MarkCloses(evs)
    decreases |evs| - n
  {
    if n < |evs| {
      MarkClosesPrefix(evs, n + 1);
      assert evs[..n + 1][..n] == evs[..n];
    } else {
      assert evs[..n] == evs;
    }
  }

  // ---------------------------------------------------------------------
  // FLExParser
  // ---------------------------------------------------------------------

  /** `FLExParser`: the gloss inserter, writing into its tree builder `sink`. */
  class FLExParser {
    const sink: Sink
    const flexDict: FlexDict
    var inMarkTag: bool
    var total: nat
    var missed: nat
    var word: string
    var section: string

    ghost predicate Valid()
      reads this, sink
    {
      sink.Valid() && missed <= total
    }

    constructor (flexDict: FlexDict)
      ensures Valid() && fresh(sink)
      ensures this.flexDict == flexDict && sink.open == [] && sink.out == []
      ensures !inMarkTag && total == 0 && missed == 0 && word == "" && section == ""
    {
      sink := new Sink();
      this.flexDict := flexDict;
      inMarkTag := false;
      total, missed := 0, 0;
      word, section := "", "";
    }

    /** `startElement`: an open with plain names, straight to the builder. */
    method StartElement(tag: string, attrs: seq<(string, string)>)
      requires Valid()
      modifies sink
      ensures Valid()
      ensures Passed(old(sink.Now()), [Open(Plain(tag), tag, PlainAttrs(attrs))], sink.Now())
      ensures sink.open == old(sink.open) + [Plain(tag)]
    {
      sink.StartElementNS(Plain(tag), tag, PlainAttrs(attrs));
    }

    /** `endElement`: a close with plain names, straight to the builder. */
    method EndElement(tag: string) returns (err: Option<Failure>)
      requires Valid()
      modifies sink
      ensures Valid()
      ensures err.None? <==> Accepts(old(sink.open), Plain(tag))
      ensures err.None? ==> Passed(old(sink.Now()), [Close(Plain(tag), tag)], sink.Now())
      ensures err.None? ==> sink.open == old(sink.open)[..|old(sink.open)| - 1]
      ensures err.Some? ==> err == Some(UnexpectedClose(Plain(tag))) && sink.Now() == old(sink.Now())
    {
      err := sink.EndElementNS(Plain(tag), tag);
    }

    method StartElementNS(name: NsName, qname: string, attrs: Attrs)
      requires Valid()
      modifies this, sink
      ensures Valid()
      ensures Passed(old(sink.Now()), OpenEvents(name, qname, attrs), sink.Now())
      ensures sink.open == old(sink.open) + (if qname == "mark" then [Span] else []) + [name]
      ensures inMarkTag == (old(inMarkTag) || qname == "mark")
      ensures section == NewSection(old(section), qname, attrs)
      ensures word == old(word) && total == old(total) && missed == old(missed)
    {
      if qname == "mark" {
        StartElement("span", WrapperAttrs);
        inMarkTag := true;
      } else if qname == "div" {
        var newSection := Get(attrs, Plain("id"));
        if newSection.Some? && newSection.value != "" {
          section := Replace(newSection.value, ".0", ".");
        }
      }
      ghost var t := sink.Now();
      sink.StartElementNS(name, qname, attrs);
      if qname == "mark" {
        PassedChain(old(sink.Now()), [Open(Span, "span", PlainAttrs(WrapperAttrs))], t, [Open(name, qname, attrs)], sink.Now());
      }
    }

    method Characters(data: string)
      requires Valid()
      modifies this, sink
      ensures Valid()
      ensures Passed(old(sink.Now()), [Text(data)], sink.Now()) && sink.open == old(sink.open)
      ensures word == if inMarkTag then old(word) + data else old(word)
      ensures inMarkTag == old(inMarkTag) && section == old(section)
      ensures total == old(total) && missed == old(missed)
    {
      if inMarkTag {
        word := word + data;
      }
      sink.Characters(data);
    }

    /**
     * A close: the builder must accept it first. After a `mark`, a non-empty
     * word is looked up, counted (and counted as missed when its gloss is
     * `{}`) and annotated; then the wrapper is closed and the word is reset.
     */
    method EndElementNS(name: NsName, qname: string) returns (err: Option<Failure>)
      requires Valid()
      modifies this, sink
      ensures Valid()
      ensures var evs := CloseEvents(name, qname, old(word), LookedUp(flexDict, old(word), old(section)));
        err.None? <==> Feed(old(sink.open), evs).Some?
      ensures var evs := CloseEvents(name, qname, old(word), LookedUp(flexDict, old(word), old(section)));
        err.None? ==> Passed(old(sink.Now()), evs, sink.Now())
      ensures !old(Accepts(sink.open, name)) ==>
        err == Some(UnexpectedClose(name)) && sink.Now() == old(sink.Now()) && word == old(word) && inMarkTag == old(inMarkTag)
      ensures err.None? ==> inMarkTag == (old(inMarkTag) && qname != "mark") && word == (if qname == "mark" then "" else old(word))
      ensures var counted := old(Accepts(sink.open, name)) && qname == "mark" && old(word) != "";
        total == old(total) + (if counted then 1 else 0)
        && missed == old(missed) + (if counted && LookedUp(flexDict, old(word), old(section)).Empty? then 1 else 0)
      ensures section == old(section)
      ensures var depth := if qname == "mark" then 2 else 1;
        err.None? ==> |old(sink.open)| >= depth && sink.open == old(sink.open)[..|old(sink.open)| - depth]
      ensures old(Accepts(sink.open, name)) && (qname == "mark" ==> old(Accepts(sink.open[..|sink.open| - 1], Span))) ==> err.None?
    {
      if qname == "mark" {
        ghost var looked := LookedUp(flexDict, word, section);
        assert CloseEvents(name, qname, word, looked) == [Close(name, "mark")] + MarkTail(word, looked);
        err := EndMark(name);
      } else {
        assert CloseEvents(name, qname, word, LookedUp(flexDict, word, section)) == [Close(name, qname)];
        err := EndOther(name, qname);
      }
    }

    /** `endElementNS` for anything but a `mark`: the builder's close alone. */
    method EndOther(name: NsName, qname: string) returns (err: Option<Failure>)
      requires Valid()
      modifies sink
      ensures Valid()
      ensures (err.None? <==> Feed(old(sink.open), [Close(name, qname)]).Some?) && (err.None? <==> Accepts(old(sink.open), name))
      ensures err.None? ==> Passed(old(sink.Now()), [Close(name, qname)], sink.Now()) && sink.open == old(sink.open)[..|old(sink.open)| - 1]
      ensures err.Some? ==> err == Some(UnexpectedClose(name)) && sink.Now() == old(sink.Now())
    {
      FeedSingle(sink.open, Close(name, qname));
      err := sink.EndElementNS(name, qname);
    }

    /** `endElementNS` for a `mark`. */
    method EndMark(name: NsName) returns (err: Option<Failure>)
      requires Valid()
      modifies this, sink
      ensures Valid()
      ensures var evs := [Close(name, "mark")] + MarkTail(old(word), LookedUp(flexDict, old(word), old(section)));
        (err.None? <==> Feed(old(sink.open), evs).Some?) && (err.None? ==> Passed(old(sink.Now()), evs, sink.Now()))
      ensures old(Accepts(sink.open, name) && Accepts(sink.open[..|sink.open| - 1], Span)) ==> err.None?
      ensures err.None? ==> |old(sink.open)| >= 2 && sink.open == old(sink.open)[..|old(sink.open)| - 2]
      ensures !old(Accepts(sink.open, name)) ==> err == Some(UnexpectedClose(name)) && sink.Now() == old(sink.Now())
      ensures !old(Accepts(sink.open, name)) ==> total == old(total) && missed == old(missed) && word == old(word) && inMarkTag == old(inMarkTag)
      ensures err.None? ==> !inMarkTag && word == ""
      ensures var counted := old(Accepts(sink.open, name)) && old(word) != "";
        total == old(total) + (if counted then 1 else 0)
        && missed == old(missed) + (if counted && LookedUp(flexDict, old(word), old(section)).Empty? then 1 else 0)
      ensures section == old(section)
    {
      ghost var tail := MarkTail(word, LookedUp(flexDict, word, section));
      ghost var t0 := sink.Now();
      FeedSingle(t0.open, Close(name, "mark"));
      FeedConcat(t0.open, [Close(name, "mark")], tail);
      err := sink.EndElementNS(name, "mark");
      if err.Some? {
        return;
      }
      ghost var t1 := sink.Now();
      assert t1.open == t0.open[..|t0.open| - 1];
      err := FinishMark();
      if err.None? {
        assert |t1.open| > 0 && sink.open == t1.open[..|t1.open| - 1];
        assert sink.open == t0.open[..|t0.open| - 2];
        PassedChain(t0, [Close(name, "mark")], t1, tail, sink.Now());
      }
    }

    /** The rest of `endElementNS` after the builder has accepted `</mark>`. */
    method FinishMark() returns (err: Option<Failure>)
      requires Valid()
      modifies this, sink
      ensures Valid()
      ensures var tail := MarkTail(old(word), LookedUp(flexDict, old(word), old(section)));
        err.None? <==> Feed(old(sink.open), tail).Some?
      ensures err.None? <==> Accepts(old(sink.open), Span)
      ensures err.None? ==> Passed(old(sink.Now()), MarkTail(old(word), LookedUp(flexDict, old(word), old(section))), sink.Now())
      ensures err.Some? ==> err == Some(UnexpectedClose(Span))
      ensures err.None? ==> !inMarkTag && word == "" && sink.open == old(sink.open)[..|old(sink.open)| - 1]
      ensures err.Some? ==> inMarkTag == old(inMarkTag) && word == old(word)
      ensures total == old(total) + (if old(word) != "" then 1 else 0)
      ensures missed == old(missed) + (if old(word) != "" && LookedUp(flexDict, old(word), old(section)).Empty? then 1 else 0)
      ensures section == old(section)
    {
      ghost var looked := LookedUp(flexDict, word, section);
      ghost var t0 := sink.Now();
      ghost var annotation: seq<Event> := [];
      if word != "" {
        Annotate();
        annotation := Annotation(looked);
      } else {
        FeedConcat(t0.open, [], []);
        assert t0.out + [] == t0.out;
      }
      ghost var t1 := sink.Now();
      assert MarkTail(old(word), looked) == annotation + [Close(Span, "span")];
      FeedConcat(t0.open, annotation, [Close(Span, "span")]);
      FeedSingle(t1.open, Close(Span, "span"));
      err := EndElement("span");
      if err.Some? {
        return;
      }
      PassedChain(t0, annotation, t1, [Close(Span, "span")], sink.Now());
      inMarkTag := false;
      word := "";
    }

    /** Look the current word up, count it, and emit its hidden annotation. */
    method Annotate()
      requires Valid()
      modifies this, sink
      ensures Valid()
      ensures Passed(old(sink.Now()), Annotation(LookedUp(flexDict, word, section)), sink.Now())
      ensures sink.open == old(sink.open)
      ensures total == old(total) + 1
      ensures missed == old(missed) + (if LookedUp(flexDict, word, section).Empty? then 1 else 0)
      ensures word == old(word) && section == old(section) && inMarkTag == old(inMarkTag)
    {
      var flexWord := Lookup(flexDict, word, section);
      total := total + 1;
      if flexWord.Empty? {
        missed := missed + 1;
      }
      EmitAnnotation(flexWord);
    }

    /** The hidden annotation itself: a content `span` around the gloss table. */
    method EmitAnnotation(flexWord: Flex)
      requires Valid()
      modifies sink
      ensures Valid()
      ensures Passed(old(sink.Now()), Annotation(flexWord), sink.Now()) && sink.open == old(sink.open)
    {
      ghost var t0 := sink.Now();
      StartElement("span", ContentAttrs);
      ghost var ta := sink.Now();
      CreateFLExWord(flexWord);
      ghost var tb := sink.Now();
      var e := EndElement("span");
      assert e.None?;
      PassedChain(t0, [Open(Span, "span", PlainAttrs(ContentAttrs))], ta, GlossTable(flexWord), tb);
      PassedChain(t0, [Open(Span, "span", PlainAttrs(ContentAttrs))] + GlossTable(flexWord), tb, [Close(Span, "span")], sink.Now());
    }

    /** `createTableRow`: a `tr` with one `td` per entry. */
    method CreateTableRow(entries: seq<string>)
      requires Valid()
      modifies sink
      ensures Valid()
      ensures Passed(old(sink.Now()), TableRow(entries), sink.Now()) && sink.open == old(sink.open)
    {
      StartElement("tr", []);
      ghost var t := sink.Now();
      CellsBalanced(t.open, []);
      for i := 0 to |entries|
        invariant Valid() && sink.open == t.open
        invariant Passed(t, Cells(entries[..i]), sink.Now())
      {
        ghost var before := sink.Now();
        StartElement("td", []);
        sink.Characters(entries[i]);
        var e := EndElement("td");
        assert e.None?;
        ghost var one := [Open(Plain("td"), "td", PlainAttrs([]))] + [Text(entries[i])] + [Close(Plain("td"), "td")];
        assert one == Cell(entries[i]);
        assert entries[..i + 1][..i] == entries[..i];
        FeedConcat(before.open, [Open(Plain("td"), "td", PlainAttrs([]))], [Text(entries[i])]);
        FeedConcat(before.open, [Open(Plain("td"), "td", PlainAttrs([]))] + [Text(entries[i])], [Close(Plain("td"), "td")]);
        PassedChain(t, Cells(entries[..i]), before, one, sink.Now());
      }
      assert entries[..|entries|] == entries;
      ghost var t1 := sink.Now();
      var e := EndElement("tr");
      assert e.None?;
      PassedChain(old(sink.Now()), [Open(Plain("tr"), "tr", PlainAttrs([]))], t, Cells(entries), t1);
      PassedChain(old(sink.Now()), [Open(Plain("tr"), "tr", PlainAttrs([]))] + Cells(entries), t1, [Close(Plain("tr"), "tr")], sink.Now());
    }

    /** `createFLExWord`: the gloss table, or nothing for `{}`. */
    method CreateFLExWord(f: Flex)
      requires Valid()
      modifies sink
      ensures Valid()
      ensures Passed(old(sink.Now()), GlossTable(f), sink.Now()) && sink.open == old(sink.open)
    {
      if f.Empty? {
        FeedConcat(sink.open, [], []);
        return;
      }
      ghost var t0 := sink.Now();
      StartElement("table", []);
      ghost var t1 := sink.Now();
      TextElement("caption", [], f.name);
      ghost var t2 := sink.Now();
      ghost var rows: seq<Event> := [];
      if AnyNonEmpty(f.morphs) && AnyNonEmpty(f.lexGlosses) {
        CreateTableRow(f.morphs);
        ghost var tm := sink.Now();
        CreateTableRow(f.lexGlosses);
        rows := TableRow(f.morphs) + TableRow(f.lexGlosses);
        PassedChain(t2, TableRow(f.morphs), tm, TableRow(f.lexGlosses), sink.Now());
      } else {
        FeedConcat(t2.open, [], []);
        assert t2.out + [] == t2.out;
      }
      ghost var t3 := sink.Now();
      TextElement("td", [("colspan", NatToString(|f.morphs|))], "'" + f.enGloss + "'");
      ghost var t4 := sink.Now();
      var e := EndElement("table");
      assert e.None?;
      ghost var caption := Element("caption", [], [Text(f.name)]);
      ghost var cell := Element("td", [("colspan", NatToString(|f.morphs|))], [Text("'" + f.enGloss + "'")]);
      PassedChain(t1, caption, t2, rows, t3);
      PassedChain(t1, caption + rows, t3, cell, t4);
      PassedChain(t0, [Open(Plain("table"), "table", PlainAttrs([]))], t1, caption + rows + cell, t4);
      PassedChain(t0, [Open(Plain("table"), "table", PlainAttrs([]))] + (caption + rows + cell), t4, [Close(Plain("table"), "table")], sink.Now());
    }

    /** `with self.E(tag, attrs): characters(content)`: an element holding one text. */
    method TextElement(tag: string, attrs: seq<(string, string)>, content: string)
      requires Valid()
      modifies sink
      ensures Valid()
      ensures Passed(old(sink.Now()), Element(tag, attrs, [Text(content)]), sink.Now()) && sink.open == old(sink.open)
    {
      ghost var t0 := sink.Now();
      StartElement(tag, attrs);
      ghost var t1 := sink.Now();
      sink.Characters(content);
      ghost var t2 := sink.Now();
      var e := EndElement(tag);
      assert e.None?;
      assert t1.open[..|t1.open| - 1] == t0.open;
      PassedChain(t0, [Open(Plain(tag), tag, PlainAttrs(attrs))], t1, [Text(content)], t2);
      PassedChain(t0, [Open(Plain(tag), tag, PlainAttrs(attrs))] + [Text(content)], t2, [Close(Plain(tag), tag)], sink.Now());
    }
  }

  /**
   * The tree walker handing one event to the parser. When the builder's
   * stack mirrors the input's nesting `nest` and the event keeps the input
   * well nested, the parser accepts it and the mirror is kept.
   */
  method Deliver(p: FLExParser, ev: Event, ghost nest: seq<(NsName, string)>) returns (err: Option<Failure>)
    requires p.Valid()
    modifies p, p.sink
    ensures p.Valid()
    ensures p.total <= old(p.total) + (if ev.Close? && ev.qname == "mark" then 1 else 0)
    ensures old(p.sink.open) == Expand(nest) && Nesting(nest, [ev]).Some? ==>
      err.None? && p.sink.open == Expand(Nesting(nest, [ev]).value)
  {
    NestingSingle(nest, ev);
    err := None;
    match ev {
      case Open(n, q, a) =>
        p.StartElementNS(n, q, a);
        ExpandSnoc(nest, n, q);
      case Close(n, q) =>
        if |nest| > 0 && nest[|nest| - 1] == (n, q) {
          ClosingExpanded(nest, n, q);
        }
        err := p.EndElementNS(n, q);
      case Text(c) => p.Characters(c);
    }
  }

  /**
   * `flexify` without the file and the printing: the parser over a whole
   * stream of events, stopping at the first failure as the exception does.
   * At most every closed `mark` is counted, a missed word is a counted one,
   * and an input whose closes match its opens never fails.
   */
  method Flexify(dict: FlexDict, input: seq<Event>) returns (out: seq<Event>, total: nat, missed: nat, err: Option<Failure>)
    ensures missed <= total <= MarkCloses(input)
    ensures Feed([], out).Some?
    ensures Nesting([], input).Some? ==> err.None?
  {
    var p := new FLExParser(dict);
    err := None;
    ghost var nest: seq<(NsName, string)> := [];
    var i := 0;
    while i < |input| && err.None?
      invariant 0 <= i <= |input|
      invariant fresh(p) && fresh(p.sink) && p.Valid()
      invariant p.total <= MarkCloses(input[..i])
      invariant Nesting([], input[..i]).Some? ==> err.None? && nest == Nesting([], input[..i]).value && p.sink.open == Expand(nest)
      decreases |input| - i
    {
      assert input[..i + 1][..i] == input[..i] && input[..i + 1] == input[..i] + [input[i]];
      NestingConcat([], input[..i], [input[i]]);
      err := Deliver(p, input[i], nest);
      nest := if Nesting(nest, [input[i]]).Some? then Nesting(nest, [input[i]]).value else [];
      i := i + 1;
    }
    MarkClosesPrefix(input, i);
    if err.Some? {
      assert input[..i] + input[i..] == input;
      NestingConcat([], input[..i], input[i..]);
    }
    out, total, missed := p.sink.out, p.total, p.missed;
  }
}
