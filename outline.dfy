/**
 * The outline builders: make_outline.py, xml_to_html/ticha_outline.py and
 * the `OutlineBuilder` of src/tei_tools.py. Each is the target of an XML
 * parser: it sees `start(tag, attrs)`, `end(tag)` and `data(text)` calls
 * with tags and attribute keys in `{namespace}local` form, and writes a
 * table of contents into its own tree builder: a `div.index` holding nested
 * `ul` lists, one `li > a` link per section. A section starts at every
 * `div` whose id begins with the text's name; the rest of the id, split at
 * `.`, is the section number, whose length is the list depth.
 *
 * The three revisions differ only in how they match tags and attributes,
 * in how they find the id, and in the link they write.
 */
module Outline {
  import opened Wrappers
  import opened Text

  datatype Revision =
    | MakeOutline   // make_outline.py
    | TichaOutline  // xml_to_html/ticha_outline.py
    | TeiTools      // src/tei_tools.py

  /** A call on a tree builder, or on an outline builder from the parser. */
  datatype Call = Start(tag: string, attrs: seq<(string, string)>) | End(tag: string) | Data(text: string)

  /** `Section(number, title, page)`. */
  datatype Section = Section(number: seq<string>, title: string, page: string)

  datatype BuilderError = PopFromEmptyStack

  const TeiNs: string := "http://www.tei-c.org/ns/1.0"
  const XmlNs: string := "http://www.w3.org/XML/1998/namespace"

  // ---------------------------------------------------------------------
  // Tag and attribute matching
  // ---------------------------------------------------------------------

  /** make_outline.py's `tag_eq`: the literal with no namespace, TEI's or XML's. */
  predicate PrefixedTagEq(tag: string, literal: string) {
    tag == literal || tag == "{" + TeiNs + "}" + literal || tag == "{" + XmlNs + "}" + literal
  }

  /** src/tei_tools.py's `outline_tag_eq`: the literal, in the empty namespace `{}` or in TEI's. */
  predicate OutlineTagEq(tag: string, literal: string) {
    tag == literal || tag == "{}" + literal || tag == "{" + TeiNs + "}" + literal
  }

  /** How each revision compares a parser tag with a literal; xml_to_html/ticha_outline.py uses plain equality. */
  predicate TagMatch(rev: Revision, tag: string, literal: string) {
    match rev
    case MakeOutline => PrefixedTagEq(tag, literal)
    case TichaOutline => tag == literal
    case TeiTools => OutlineTagEq(tag, literal)
  }

  /** Neither namespace-aware comparison has a `prefix:` rule: a prefixed qualified name never matches. */
  lemma NoColonRule(prefix: string, literal: string)
    ensures !PrefixedTagEq(prefix + ":" + literal, literal)
    ensures !OutlineTagEq(prefix + ":" + literal, literal)
  {
    var t := prefix + ":" + literal;
    assert t[|prefix|] == ':';
    var tei := "{" + TeiNs + "}" + literal;
    var xml := "{" + XmlNs + "}" + literal;
    var empty := "{}" + literal;
    if |t| == |tei| {
      assert tei[|prefix|] == '}';
    }
    if |t| == |xml| {
      assert xml[|prefix|] == '}';
    }
    if |t| == |empty| {
      assert empty[|prefix|] == '}';
    }
  }

  /** An example, not a general law: the revisions disagree on the XML namespace and on the empty one. */
  lemma RevisionsDisagree()
    ensures TagMatch(MakeOutline, "{" + XmlNs + "}div", "div") && !TagMatch(TeiTools, "{" + XmlNs + "}div", "div")
    ensures TagMatch(TeiTools, "{}div", "div") && !TagMatch(MakeOutline, "{}div", "div")
    ensures !TagMatch(TichaOutline, "{" + TeiNs + "}div", "div") && TagMatch(MakeOutline, "{" + TeiNs + "}div", "div")
  {
    assert ("{" + XmlNs + "}div")[1] == 'h' && ("{" + TeiNs + "}div")[12] == 't' && ("{" + XmlNs + "}div")[12] == 'w';
    assert ("{}div")[1] == '}';
  }

  /** make_outline.py's `get_xml_attr`: the key with no namespace, then TEI's, then XML's. */
  function GetXmlAttr(attrs: seq<(string, string)>, name: string): (r: Option<string>)
    ensures r.Some? <==> exists i :: 0 <= i < |attrs| && PrefixedTagEq(attrs[i].0, name)
    ensures Get(attrs, name).Some? ==> r == Get(attrs, name)
    ensures r.Some? ==> exists i :: 0 <= i < |attrs| && PrefixedTagEq(attrs[i].0, name) && attrs[i].1 == r.value
  {
    var plain := Get(attrs, name);
    if plain.Some? then plain
    else
      var tei := Get(attrs, "{" + TeiNs + "}" + name);
      if tei.Some? then tei else Get(attrs, "{" + XmlNs + "}" + name)
  }

  /** The known namespaces are tried in order: no namespace, then TEI's, then XML's. */
  lemma GetXmlAttrOrder(attrs: seq<(string, string)>, name: string)
    ensures Get(attrs, name).Some? ==> GetXmlAttr(attrs, name) == Get(attrs, name)
    ensures Get(attrs, name).None? && Get(attrs, "{" + TeiNs + "}" + name).Some? ==>
      GetXmlAttr(attrs, name) == Get(attrs, "{" + TeiNs + "}" + name)
    ensures Get(attrs, name).None? && Get(attrs, "{" + TeiNs + "}" + name).None? ==>
      GetXmlAttr(attrs, name) == Get(attrs, "{" + XmlNs + "}" + name)
  {
  }

  predicate KeyMatches(key: string, name: string) {
    OutlineTagEq(key, name)
  }

  /** src/tei_tools.py's `find_attr`: the value of the first key, in order, that names `name` in a known namespace. */
  function FindAttr(attrs: seq<(string, string)>, name: string): (r: Option<string>)
    ensures r.None? <==> forall i :: 0 <= i < |attrs| ==> !KeyMatches(attrs[i].0, name)
    ensures r.Some? ==> exists i :: (0 <= i < |attrs| && KeyMatches(attrs[i].0, name) && attrs[i].1 == r.value
      && forall j :: 0 <= j < i ==> !KeyMatches(attrs[j].0, name))
    decreases |attrs|
  {
    if |attrs| == 0 then None
    else if KeyMatches(attrs[0].0, name) then Some(attrs[0].1)
    else
      var r := FindAttr(attrs[1..], name);
      assert r.Some? ==> exists i :: (1 <= i < |attrs| && KeyMatches(attrs[i].0, name) && attrs[i].1 == r.value
        && forall j :: 0 <= j < i ==> !KeyMatches(attrs[j].0, name)) by {
        if r.Some? {
          var k :| 0 <= k < |attrs| - 1 && KeyMatches(attrs[1..][k].0, name) && attrs[1..][k].1 == r.value
            && forall j :: 0 <= j < k ==> !KeyMatches(attrs[1..][j].0, name);
          assert forall j :: 0 <= j < k + 1 ==> !KeyMatches(attrs[j].0, name) by {
            forall j | 0 <= j < k + 1 ensures !KeyMatches(attrs[j].0, name) {
              if j > 0 {
                assert attrs[j] == attrs[1..][j - 1];
              }
            }
          }
        }
      }
      r
  }

  /** An example: `find_attr` goes by attribute order, `get_xml_attr` by namespace order, so on one input they disagree. */
  lemma AttrLookupsDisagree()
    ensures var attrs := [("{" + TeiNs + "}type", "pdf"), ("type", "page")];
      FindAttr(attrs, "type") == Some("pdf") && GetXmlAttr(attrs, "type") == Some("page")
  {
    var attrs := [("{" + TeiNs + "}type", "pdf"), ("type", "page")];
    assert KeyMatches(attrs[0].0, "type");
    assert Get(attrs[1..], "type") == Some("page");
    assert attrs[0].0 != "type" by {
      assert |attrs[0].0| != |"type"|;
    }
  }

  /** How each revision reads an attribute; xml_to_html/ticha_outline.py uses `attrs.get`. */
  function AttrOf(rev: Revision, attrs: seq<(string, string)>, name: string): Option<string> {
    match rev
    case MakeOutline => GetXmlAttr(attrs, name)
    case TichaOutline => Get(attrs, name)
    case TeiTools => FindAttr(attrs, name)
  }

  /** The first attribute, in order, whose key ends in `id` and whose value starts with the text's name. */
  predicate IdFor(attr: (string, string), text: string) {
    EndsWith(attr.0, "id") && StartsWith(attr.1, text)
  }

  function SectionId(attrs: seq<(string, string)>, text: string): (r: Option<string>)
    ensures r.None? <==> forall i :: 0 <= i < |attrs| ==> !IdFor(attrs[i], text)
    ensures r.Some? ==> exists i :: (0 <= i < |attrs| && IdFor(attrs[i], text) && attrs[i].1 == r.value
      && forall j :: 0 <= j < i ==> !IdFor(attrs[j], text))
    decreases |attrs|
  {
    if |attrs| == 0 then None
    else if IdFor(attrs[0], text) then Some(attrs[0].1)
    else
      var r := SectionId(attrs[1..], text);
      assert r.Some? ==> exists i :: (1 <= i < |attrs| && IdFor(attrs[i], text) && attrs[i].1 == r.value
        && forall j :: 0 <= j < i ==> !IdFor(attrs[j], text)) by {
        if r.Some? {
          var k :| 0 <= k < |attrs| - 1 && IdFor(attrs[1..][k], text) && attrs[1..][k].1 == r.value
            && forall j :: 0 <= j < k ==> !IdFor(attrs[1..][j], text);
          assert forall j :: 0 <= j < k + 1 ==> !IdFor(attrs[j], text) by {
            forall j | 0 <= j < k + 1 ensures !IdFor(attrs[j], text) {
              if j > 0 {
                assert attrs[j] == attrs[1..][j - 1];
              }
            }
          }
        }
      }
      r
  }

  /** The id that starts a section, if this `div` has one. */
  function DivId(rev: Revision, text: string, attrs: seq<(string, string)>): (r: Option<string>)
    ensures r.Some? ==> StartsWith(r.value, text)
  {
    if rev == MakeOutline then
      var id := GetXmlAttr(attrs, "id");
      if id.Some? && StartsWith(id.value, text) then id else None
    else SectionId(attrs, text)
  }

  /** What an opening tag means to the outline. */
  datatype StartKind = PageBreak | NewSection(number: seq<string>) | OutlineHead | Other

  function Classify(rev: Revision, text: string, tag: string, attrs: seq<(string, string)>): (k: StartKind)
    ensures k.NewSection? ==> |k.number| >= 1
  {
    if TagMatch(rev, tag, "pb") && AttrOf(rev, attrs, "type") != Some("pdf") then PageBreak
    else if TagMatch(rev, tag, "div") then
      match DivId(rev, text, attrs)
      case Some(id) => NewSection(Split(id[|text|..], '.'))
      case None => Other
    else if TagMatch(rev, tag, "head") && AttrOf(rev, attrs, "type") == Some("outline") then OutlineHead
    else Other
  }

  /** A page break typed `pdf` is not a page, in every revision. */
  lemma PdfPageIgnored(rev: Revision, text: string, tag: string, attrs: seq<(string, string)>)
    requires TagMatch(rev, tag, "pb") && AttrOf(rev, attrs, "type") == Some("pdf")
    ensures Classify(rev, text, tag, attrs) == Other
  {
    TagMatchLast(rev, tag, "pb");
    if TagMatch(rev, tag, "div") {
      TagMatchLast(rev, tag, "div");
      assert false;
    }
    if TagMatch(rev, tag, "head") {
      TagMatchLast(rev, tag, "head");
      assert false;
    }
  }

  lemma TagMatchLast(rev: Revision, tag: string, literal: string)
    requires |literal| > 0 && TagMatch(rev, tag, literal)
    ensures |tag| > 0 && tag[|tag| - 1] == literal[|literal| - 1]
  {
  }

  /** A `div` whose id does not start with the text's name is not a section. */
  lemma ForeignDivIgnored(rev: Revision, text: string, attrs: seq<(string, string)>)
    requires forall i :: 0 <= i < |attrs| ==> !StartsWith(attrs[i].1, text)
    ensures Classify(rev, text, "div", attrs) == Other
  {
    assert TagMatch(rev, "div", "div");
    assert !TagMatch(rev, "div", "pb");
    var id := GetXmlAttr(attrs, "id");
    assert id.Some? ==> !StartsWith(id.value, text);
  }

  // ---------------------------------------------------------------------
  // What the outline writes
  // ---------------------------------------------------------------------

  /** `str(n)`. */
  function IntToString(n: int): (r: string)
    ensures |r| >= 1
    ensures n >= 0 ==> r == NatToString(n)
  {
    if n < 0 then "-" + NatToString(-n) else NatToString(n)
  }

  /** What `str(n)` denotes: a minus sign for a negative number, then the decimal digits of its magnitude. */
  lemma IntToStringMeaning(n: int)
    ensures var r := IntToString(n);
      && (n >= 0 ==> (forall i :: 0 <= i < |r| ==> IsDigit(r[i])) && DigitsValue(r) == n)
      && (n < 0 ==> r[0] == '-' && (forall i :: 1 <= i < |r| ==> IsDigit(r[i])) && DigitsValue(r[1..]) == -n)
  {
    if n < 0 {
      NatToStringReadsBack(-n);
      assert IntToString(n)[1..] == NatToString(-n);
    } else {
      NatToStringReadsBack(n);
    }
  }

  /** Distinct pages give distinct page strings, hence distinct links. */
  lemma IntToStringInjective(m: int, n: int)
    ensures IntToString(m) == IntToString(n) ==> m == n
  {
    IntToStringMeaning(m);
    IntToStringMeaning(n);
  }

  /** The link of a section. */
  function Url(rev: Revision, text: string, page: string): string {
    if rev == TeiTools then "https://ticha.haverford.edu/en/texts/" + text + "/" + page + "/original"
    else "/en/texts/" + text + "/" + page + "/original"
  }

  function Uls(n: nat): seq<string> {
    seq(n, _ => "ul")
  }

  /** `n` closes of the innermost list. */
  function Ends(n: nat): seq<Call> {
    seq(n, _ => End("ul"))
  }

  /** One intermediate level opened on the way to a deeper section. */
  function Level(number: seq<string>, i: nat): seq<Call>
    requires i <= |number|
  {
    [Start("ul", []), Start("li", []), Data(Join(number[i..], ".")), End("li")]
  }

  /** The intermediate levels `lo` up to, not including, `hi`. */
  function Levels(number: seq<string>, lo: nat, hi: nat): seq<Call>
    requires lo <= hi <= |number|
    decreases hi - lo
  {
    if lo == hi then [] else Levels(number, lo, hi - 1) + Level(number, hi - 1)
  }

  /** The list changes from depth `|prev|` to the new section's depth. */
  function ListChange(prev: seq<string>, number: seq<string>): seq<Call>
    requires |number| >= 1
  {
    if |prev| > |number| then Ends(|prev| - |number|)
    else if |prev| < |number| then
      Levels(number, |prev|, |number| - 1) + [Start("ul", [("id", "section" + Join(prev, "."))])]
    else []
  }

  /** The list entry of a section: `li > a`, reading `number title`. */
  function Entry(rev: Revision, text: string, s: Section): seq<Call> {
    [Start("li", []), Start("a", [("href", Url(rev, text, s.page))]),
     Data(Join(s.number, ".") + " " + s.title), End("a"), End("li")]
  }

  /** `write_section` for a pending section, written after the list at depth `|prev|`. */
  function SectionCalls(rev: Revision, text: string, prev: seq<string>, s: Section): seq<Call>
    requires |s.number| >= 1
  {
    ListChange(prev, s.number) + Entry(rev, text, s)
  }

  // ---------------------------------------------------------------------
  // The tree builder
  // ---------------------------------------------------------------------

  /**
   * The tags a tree builder holds open after `calls`: an end pops the
   * innermost element whatever its tag, and fails on an empty stack.
   */
  function Replay(open: seq<string>, calls: seq<Call>): Option<seq<string>>
    decreases |calls|
  {
    if |calls| == 0 then Some(open)
    else match calls[0]
      case Start(t, _) => Replay(open + [t], calls[1..])
      case End(_) => if |open| == 0 then None else Replay(open[..|open| - 1], calls[1..])
      case Data(_) => Replay(open, calls[1..])
  }

  lemma {:induction false} ReplayConcat(open: seq<string>, a: seq<Call>, b: seq<Call>)
    ensures Replay(open, a + b) == if Replay(open, a).Some? then Replay(Replay(open, a).value, b) else None
    decreases |a|
  {
    if |a| == 0 {
      assert a + b == b;
    } else {
      assert (a + b)[1..] == a[1..] + b;
      match a[0]
      case Start(t, _) => ReplayConcat(open + [t], a[1..], b);
      case End(_) =>
        if |open| > 0 {
          ReplayConcat(open[..|open| - 1], a[1..], b);
        }
      case Data(_) => ReplayConcat(open, a[1..], b);
    }
  }

  lemma ReplaySingle(open: seq<string>, c: Call)
    ensures c.Start? ==> Replay(open, [c]) == Some(open + [c.tag])
    ensures c.End? ==> Replay(open, [c]) == if |open| > 0 then Some(open[..|open| - 1]) else None
    ensures c.Data? ==> Replay(open, [c]) == Some(open)
  {
    assert [c][1..] == [];
  }

  /** Closing `n` lists below `div` leaves the lists above. */
  lemma {:induction false} EndsDepth(k: nat, n: nat)
    requires n <= k
    ensures Replay(["div"] + Uls(k), Ends(n)) == Some(["div"] + Uls(k - n))
    decreases n
  {
    if n == 0 {
      assert Ends(0) == [];
    } else {
      EndsDepth(k, n - 1);
      assert Ends(n) == Ends(n - 1) + [End("ul")];
      ReplayConcat(["div"] + Uls(k), Ends(n - 1), [End("ul")]);
      ReplaySingle(["div"] + Uls(k - (n - 1)), End("ul"));
      assert (["div"] + Uls(k - (n - 1)))[..|["div"] + Uls(k - (n - 1))| - 1] == ["div"] + Uls(k - n);
    }
  }

  /** Each intermediate level leaves one more list open. */
  lemma {:induction false} LevelsDepth(number: seq<string>, lo: nat, hi: nat)
    requires lo <= hi <= |number|
    ensures Replay(["div"] + Uls(lo), Levels(number, lo, hi)) == Some(["div"] + Uls(hi))
    decreases hi - lo
  {
    if lo < hi {
      LevelsDepth(number, lo, hi - 1);
      var below := ["div"] + Uls(hi - 1);
      ReplayConcat(["div"] + Uls(lo), Levels(number, lo, hi - 1), Level(number, hi - 1));
      var l := Level(number, hi - 1);
      assert l == [l[0]] + ([l[1]] + ([l[2]] + [l[3]]));
      ReplayConcat(below, [l[0]], [l[1]] + ([l[2]] + [l[3]]));
      ReplaySingle(below, l[0]);
      ReplayConcat(below + ["ul"], [l[1]], [l[2]] + [l[3]]);
      ReplaySingle(below + ["ul"], l[1]);
      ReplayConcat(below + ["ul"] + ["li"], [l[2]], [l[3]]);
      ReplaySingle(below + ["ul"] + ["li"], l[2]);
      ReplaySingle(below + ["ul"] + ["li"], l[3]);
      assert (below + ["ul"] + ["li"])[..|below| + 1] == below + ["ul"];
      assert below + ["ul"] == ["div"] + Uls(hi);
    } else {
      assert Uls(lo) == Uls(hi);
    }
  }

  /** A list entry leaves the open lists as they were. */
  lemma EntryBalanced(open: seq<string>, rev: Revision, text: string, s: Section)
    ensures Replay(open, Entry(rev, text, s)) == Some(open)
  {
    var e := Entry(rev, text, s);
    var li := open + ["li"];
    assert Replay(open, e) == Replay(li, e[1..]);
    assert Replay(li, e[1..]) == Replay(li + ["a"], e[1..][1..]);
    assert Replay(li + ["a"], e[1..][1..]) == Replay(li + ["a"], e[1..][1..][1..]);
    assert (li + ["a"])[..|li|] == li;
    assert Replay(li + ["a"], e[1..][1..][1..]) == Replay(li, e[1..][1..][1..][1..]);
    assert li[..|open|] == open;
    assert Replay(li, e[1..][1..][1..][1..]) == Replay(open, e[1..][1..][1..][1..][1..]);
    assert e[1..][1..][1..][1..][1..] == [];
  }

  /**
   * After a section is written, exactly as many lists are open below the
   * `div` as its number has parts, whatever the previous depth.
   */
  lemma SectionCallsDepth(rev: Revision, text: string, prev: seq<string>, s: Section)
    requires |s.number| >= 1
    ensures Replay(["div"] + Uls(|prev|), SectionCalls(rev, text, prev, s)) == Some(["div"] + Uls(|s.number|))
  {
    var n := |s.number|;
    var change := ListChange(prev, s.number);
    if |prev| > n {
      EndsDepth(|prev|, |prev| - n);
    } else if |prev| < n {
      var opener := Start("ul", [("id", "section" + Join(prev, "."))]);
      LevelsDepth(s.number, |prev|, n - 1);
      ReplayConcat(["div"] + Uls(|prev|), Levels(s.number, |prev|, n - 1), [opener]);
      ReplaySingle(["div"] + Uls(n - 1), opener);
      assert ["div"] + Uls(n - 1) + ["ul"] == ["div"] + Uls(n);
    } else {
      assert Uls(|prev|) == Uls(n);
    }
    ReplayConcat(["div"] + Uls(|prev|), change, Entry(rev, text, s));
    EntryBalanced(["div"] + Uls(n), rev, text, s);
  }

  /** Deeper sections get one intermediate `li` per skipped level, holding the rest of the new number. */
  lemma {:induction false} LevelsLayout(number: seq<string>, lo: nat, hi: nat)
    requires lo <= hi <= |number|
    ensures |Levels(number, lo, hi)| == 4 * (hi - lo)
    ensures forall i :: lo <= i < hi ==> Levels(number, lo, hi)[4 * (i - lo)..4 * (i - lo) + 4] == Level(number, i)
    decreases hi - lo
  {
    if lo < hi {
      LevelsLayout(number, lo, hi - 1);
      var prev := Levels(number, lo, hi - 1);
      forall i | lo <= i < hi
        ensures Levels(number, lo, hi)[4 * (i - lo)..4 * (i - lo) + 4] == Level(number, i)
      {
        if i < hi - 1 {
          assert Levels(number, lo, hi)[4 * (i - lo)..4 * (i - lo) + 4] == prev[4 * (i - lo)..4 * (i - lo) + 4];
        } else {
          assert Levels(number, lo, hi)[4 * (i - lo)..4 * (i - lo) + 4] == Level(number, hi - 1);
        }
      }
    }
  }

  /** Number of links (`a` starts) in a sequence of calls. */
  function Links(calls: seq<Call>): nat
    decreases |calls|
  {
    if |calls| == 0 then 0
    else Links(calls[..|calls| - 1]) + (if calls[|calls| - 1].Start? && calls[|calls| - 1].tag == "a" then 1 else 0)
  }

  lemma {:induction false} LinksConcat(a: seq<Call>, b: seq<Call>)
    ensures Links(a + b) == Links(a) + Links(b)
    decreases |b|
  {
    if |b| == 0 {
      assert a + b == a;
    } else {
      LinksConcat(a, b[..|b| - 1]);
      assert (a + b)[..|a + b| - 1] == a + b[..|b| - 1];
    }
  }

  /** Calls that open no `a` carry no link. */
  lemma {:induction false} NoLinks(calls: seq<Call>)
    requires forall i :: 0 <= i < |calls| ==> !(calls[i].Start? && calls[i].tag == "a")
    ensures Links(calls) == 0
    decreases |calls|
  {
    if |calls| > 0 {
      NoLinks(calls[..|calls| - 1]);
    }
  }

  lemma LevelsHaveNoLinks(number: seq<string>, lo: nat, hi: nat)
    requires lo <= hi <= |number|
    ensures Links(Levels(number, lo, hi)) == 0
  {
    var lv := Levels(number, lo, hi);
    LevelsLayout(number, lo, hi);
    forall i | 0 <= i < |lv| ensures !(lv[i].Start? && lv[i].tag == "a") {
      var k := i / 4;
      assert lv[4 * k..4 * k + 4] == Level(number, lo + k);
      assert lv[i] == lv[4 * k..4 * k + 4][i - 4 * k];
    }
    NoLinks(lv);
  }

  lemma EntryHasOneLink(rev: Revision, text: string, s: Section)
    ensures Links(Entry(rev, text, s)) == 1
  {
    var e := Entry(rev, text, s);
    NoLinks(e[2..]);
    LinksConcat([e[0]], [e[1]]);
    LinksConcat([e[0]] + [e[1]], e[2..]);
    assert e == [e[0]] + [e[1]] + e[2..];
    assert [e[0]][..0] == [] && [e[1]][..0] == [];
  }

  /** Every written section carries exactly one link. */
  lemma OneLinkPerSection(rev: Revision, text: string, prev: seq<string>, s: Section)
    requires |s.number| >= 1
    ensures Links(SectionCalls(rev, text, prev, s)) == 1
  {
    var change := ListChange(prev, s.number);
    if |prev| < |s.number| {
      var lv := Levels(s.number, |prev|, |s.number| - 1);
      var opener := Start("ul", [("id", "section" + Join(prev, "."))]);
      LevelsHaveNoLinks(s.number, |prev|, |s.number| - 1);
      LinksConcat(lv, [opener]);
      assert [opener][..0] == [];
    } else {
      NoLinks(change);
    }
    EntryHasOneLink(rev, text, s);
    LinksConcat(change, Entry(rev, text, s));
  }

  /** Tree builder calls recorded with the stack they leave. */
  class TreeBuilder {
    var open: seq<string>
    var out: seq<Call>

    ghost predicate Valid()
      reads this
    {
      Replay([], out) == Some(open)
    }

    constructor ()
      ensures Valid() && open == [] && out == []
    {
      open, out := [], [];
    }

    method Start(tag: string, attrs: seq<(string, string)>)
      requires Valid()
      modifies this
      ensures Valid() && open == old(open) + [tag] && out == old(out) + [Call.Start(tag, attrs)]
    {
      ReplayConcat([], out, [Call.Start(tag, attrs)]);
      ReplaySingle(open, Call.Start(tag, attrs));
      open, out := open + [tag], out + [Call.Start(tag, attrs)];
    }

    /** Pops the innermost element without looking at `tag`; an empty stack is an `IndexError`. */
    method End(tag: string) returns (err: Option<BuilderError>)
      requires Valid()
      modifies this
      ensures Valid()
      ensures err.None? <==> |old(open)| > 0
      ensures err.None? ==> open == old(open)[..|old(open)| - 1] && out == old(out) + [Call.End(tag)]
      ensures err.Some? ==> err == Some(PopFromEmptyStack) && open == old(open) && out == old(out)
    {
      if |open| == 0 {
        return Some(PopFromEmptyStack);
      }
      ReplayConcat([], out, [Call.End(tag)]);
      ReplaySingle(open, Call.End(tag));
      open, out := open[..|open| - 1], out + [Call.End(tag)];
      err := None;
    }

    method Data(text: string)
      requires Valid()
      modifies this
      ensures Valid() && open == old(open) && out == old(out) + [Call.Data(text)]
    {
      ReplayConcat([], out, [Call.Data(text)]);
      ReplaySingle(open, Call.Data(text));
      out := out + [Call.Data(text)];
    }
  }

  /** The number a section id yields reads back as the id with the text's name taken off. */
  lemma SectionNumberReadsBack(rev: Revision, text: string, attrs: seq<(string, string)>)
    requires DivId(rev, text, attrs).Some?
    ensures var id := DivId(rev, text, attrs).value;
      Join(Split(id[|text|..], '.'), ".") == id[|text|..]
  {
    var id := DivId(rev, text, attrs).value;
    JoinSplit(id[|text|..], '.');
  }

  /** The search loop of the ticha and tei_tools `start`: the first key ending in `id` whose value starts with the text's name. */
  method FindSectionId(attrs: seq<(string, string)>, text: string) returns (r: Option<string>)
    ensures r == SectionId(attrs, text)
  {
    var i := 0;
    r := None;
    while i < |attrs|
      invariant 0 <= i <= |attrs|
      invariant SectionId(attrs, text) == SectionId(attrs[i..], text)
    {
      if EndsWith(attrs[i].0, "id") && StartsWith(attrs[i].1, text) {
        r := Some(attrs[i].1);
        return;
      }
      assert attrs[i..][1..] == attrs[i + 1..];
      i := i + 1;
    }
  }

  /** The number of section-starting tags among parser calls. */
  function Sections(rev: Revision, text: string, input: seq<Call>): nat
    decreases |input|
  {
    if |input| == 0 then 0
    else
      var c := input[|input| - 1];
      Sections(rev, text, input[..|input| - 1])
        + (if c.Start? && Classify(rev, text, c.tag, c.attrs).NewSection? then 1 else 0)
  }

  /** Ends `count` of the `depth` lists open below the index `div`. */
  method EndLists(t: TreeBuilder, depth: nat, count: nat)
    requires t.Valid() && count <= depth && t.open == ["div"] + Uls(depth)
    modifies t
    ensures t.Valid() && t.open == ["div"] + Uls(depth - count)
    ensures t.out == old(t.out) + Ends(count)
  {
    for i := 0 to count
      invariant t.Valid() && t.open == ["div"] + Uls(depth - i)
      invariant t.out == old(t.out) + Ends(i)
    {
      var _ := t.End("ul");
      assert Ends(i + 1) == Ends(i) + [End("ul")];
      assert (["div"] + Uls(depth - i))[..depth - i] == ["div"] + Uls(depth - (i + 1));
    }
  }

  /** Opens the lists from the depth of `prev` down to that of the deeper `number`. */
  method OpenLevels(t: TreeBuilder, prev: seq<string>, number: seq<string>)
    requires t.Valid() && |prev| < |number| && t.open == ["div"] + Uls(|prev|)
    modifies t
    ensures t.Valid() && t.open == ["div"] + Uls(|number|)
    ensures t.out == old(t.out) + ListChange(prev, number)
  {
    for i := |prev| to |number| - 1
      invariant t.Valid() && t.open == ["div"] + Uls(i)
      invariant t.out == old(t.out) + Levels(number, |prev|, i)
    {
      t.Start("ul", []);
      t.Start("li", []);
      t.Data(Join(number[i..], "."));
      var _ := t.End("li");
      assert (["div"] + Uls(i) + ["ul"] + ["li"])[..i + 2] == ["div"] + Uls(i + 1);
    }
    t.Start("ul", [("id", "section" + Join(prev, "."))]);
    assert ["div"] + Uls(|number| - 1) + ["ul"] == ["div"] + Uls(|number|);
  }

  /** Writes the `li > a` entry of a section. */
  method AddEntry(t: TreeBuilder, rev: Revision, text: string, s: Section)
    requires t.Valid()
    modifies t
    ensures t.Valid() && t.open == old(t.open)
    ensures t.out == old(t.out) + Entry(rev, text, s)
  {
    ghost var open, out0 := t.open, t.out;
    ghost var calls := Entry(rev, text, s);
    t.Start("li", []);
    t.Start("a", [("href", Url(rev, text, s.page))]);
    t.Data(Join(s.number, ".") + " " + s.title);
    var _ := t.End("a");
    var _ := t.End("li");
    assert (open + ["li"] + ["a"])[..|open| + 1] == open + ["li"];
    assert (open + ["li"])[..|open|] == open;
    assert t.out == out0 + [calls[0]] + [calls[1]] + [calls[2]] + [calls[3]] + [calls[4]];
    assert [calls[0]] + [calls[1]] + [calls[2]] + [calls[3]] + [calls[4]] == calls;
  }

  /**
   * An `OutlineBuilder`: the pending section, the current page and the
   * number of the last section written, over its own tree builder.
   */
  class OutlineBuilder {
    const tree: TreeBuilder
    const revision: Revision
    const text: string
    var page: int
    var inProgress: Option<Section>
    var getTitle: bool
    var number: seq<string>

    /** One list is open below the index `div` per part of the last written number. */
    ghost predicate Valid()
      reads this, tree
    {
      tree.Valid() && |number| >= 1 && tree.open == ["div"] + Uls(|number|)
      && (inProgress.Some? ==> |inProgress.value.number| >= 1)
    }

    /** What `write_section` would write now. */
    ghost function Pending(): seq<Call>
      reads this
      requires inProgress.Some? ==> |inProgress.value.number| >= 1
    {
      if inProgress.Some? then SectionCalls(revision, text, number, inProgress.value) else []
    }

    constructor (revision: Revision, text: string, firstPage: int)
      ensures Valid() && fresh(tree)
      ensures this.revision == revision && this.text == text
      ensures tree.out == [Call.Start("div", [("class", "index")]), Call.Start("ul", [])]
      ensures page == firstPage && inProgress == None && !getTitle && number == ["1"]
    {
      var t := new TreeBuilder();
      t.Start("div", [("class", "index")]);
      t.Start("ul", []);
      tree := t;
      this.revision := revision;
      this.text := text;
      page := firstPage;
      inProgress := None;
      getTitle := false;
      number := ["1"];
      assert ["div"] + Uls(1) == ["div", "ul"];
    }

    /** Writes the pending section, if any, after closing or opening lists to its depth. */
    method WriteSection()
      requires Valid()
      modifies this, tree
      ensures Valid()
      ensures tree.out == old(tree.out) + old(Pending())
      ensures number == if old(inProgress).Some? then old(inProgress).value.number else old(number)
      ensures page == old(page) && inProgress == old(inProgress) && getTitle == old(getTitle)
    {
      if inProgress.None? {
        return;
      }
      var s := inProgress.value;
      if |number| > |s.number| {
        EndLists(tree, |number|, |number| - |s.number|);
      } else if |number| < |s.number| {
        OpenLevels(tree, number, s.number);
      }
      AddEntry(tree, revision, text, s);
      number := s.number;
    }

    /** The parser's `start`: counts pages, starts sections and marks outline headings. */
    method Start(tag: string, attrs: seq<(string, string)>)
      requires Valid()
      modifies this, tree
      ensures Valid()
      ensures var k := Classify(revision, text, tag, attrs);
        && page == old(page) + (if k.PageBreak? then 1 else 0)
        && getTitle == (old(getTitle) || k.OutlineHead?)
        && (k.NewSection? ==>
              inProgress == Some(Section(k.number, "", IntToString(old(page)))) && tree.out == old(tree.out) + old(Pending()))
        && (k.NewSection? ==> number == if old(inProgress).Some? then old(inProgress).value.number else old(number))
        && (!k.NewSection? ==> inProgress == old(inProgress) && number == old(number) && tree.out == old(tree.out))
    {
      if TagMatch(revision, tag, "pb") && AttrOf(revision, attrs, "type") != Some("pdf") {
        page := page + 1;
      } else if TagMatch(revision, tag, "div") {
        var id: Option<string>;
        if revision == MakeOutline {
          id := GetXmlAttr(attrs, "id");
          if id.Some? && !StartsWith(id.value, text) {
            id := None;
          }
        } else {
          id := FindSectionId(attrs, text);
        }
        if id.Some? {
          var sectionNumber := Split(id.value[|text|..], '.');
          WriteSection();
          inProgress := Some(Section(sectionNumber, "", IntToString(page)));
        }
      } else if TagMatch(revision, tag, "head") && AttrOf(revision, attrs, "type") == Some("outline") {
        getTitle := true;
      }
    }

    /** The parser's `end`: a closing `head` ends the title. */
    method End(tag: string)
      requires Valid()
      modifies this
      ensures Valid()
      ensures getTitle == (old(getTitle) && !TagMatch(revision, tag, "head"))
      ensures page == old(page) && inProgress == old(inProgress) && number == old(number)
    {
      if TagMatch(revision, tag, "head") {
        getTitle := false;
      }
    }

    /** The parser's `data`: inside an outline heading, text extends the pending section's title. */
    method Data(data: string)
      requires Valid()
      modifies this
      ensures Valid()
      ensures old(getTitle) && old(inProgress).Some? ==>
        inProgress == Some(old(inProgress).value.(title := old(inProgress).value.title + data))
      ensures !(old(getTitle) && old(inProgress).Some?) ==> inProgress == old(inProgress)
      ensures page == old(page) && getTitle == old(getTitle) && number == old(number)
    {
      if getTitle && inProgress.Some? {
        inProgress := Some(inProgress.value.(title := inProgress.value.title + data));
      }
    }

    /**
     * Writes the pending section and ends one list and then one more
     * element; the tree builder's `close` does not look at what stays open.
     */
    method Close() returns (root: seq<Call>)
      requires Valid()
      modifies this, tree
      ensures root == tree.out
      ensures root == old(tree.out) + old(Pending()) + [Call.End("ul"), Call.End("div")]
      ensures tree.Valid()
      ensures tree.open == if |number| >= 2 then ["div"] + Uls(|number| - 2) else []
      ensures number == if old(inProgress).Some? then old(inProgress).value.number else old(number)
    {
      WriteSection();
      var _ := tree.End("ul");
      var _ := tree.End("div");
      assert (["div"] + Uls(|number|))[..|number|] == ["div"] + Uls(|number| - 1);
      if |number| >= 2 {
        assert (["div"] + Uls(|number| - 1))[..|number| - 1] == ["div"] + Uls(|number| - 2);
      }
      root := tree.out;
    }
  }

  /**
   * `xml_to_outline`: feeds parser calls to a fresh builder and closes it.
   * The result replays on a tree builder without an empty-stack error, and
   * it holds exactly one link per section-starting tag.
   */
  method XmlToOutline(revision: Revision, text: string, firstPage: int, input: seq<Call>) returns (root: seq<Call>)
    ensures Replay([], root).Some?
    ensures Links(root) == Sections(revision, text, input)
  {
    var b := new OutlineBuilder(revision, text, firstPage);
    assert Links(b.tree.out) == 0 by {
      NoLinks(b.tree.out);
    }
    var i := 0;
    while i < |input|
      invariant 0 <= i <= |input|
      invariant b.Valid() && b.revision == revision && b.text == text
      invariant Links(b.tree.out) + (if b.inProgress.Some? then 1 else 0) == Sections(revision, text, input[..i])
    {
      assert input[..i + 1][..i] == input[..i];
      Feed(b, input[i]);
      i := i + 1;
    }
    assert input[..i] == input;
    ghost var pending := b.Pending();
    ghost var out0 := b.tree.out;
    if b.inProgress.Some? {
      OneLinkPerSection(revision, text, b.number, b.inProgress.value);
    } else {
      NoLinks(pending);
    }
    root := b.Close();
    LinksConcat(out0, pending);
    LinksConcat(out0 + pending, [Call.End("ul"), Call.End("div")]);
    NoLinks([Call.End("ul"), Call.End("div")]);
  }

  /** One parser call; a section-starting tag moves the pending count into the written links. */
  method Feed(b: OutlineBuilder, c: Call)
    requires b.Valid()
    modifies b, b.tree
    ensures b.Valid()
    ensures Links(b.tree.out) + (if b.inProgress.Some? then 1 else 0)
      == Links(old(b.tree.out)) + (if old(b.inProgress).Some? then 1 else 0)
        + (if c.Start? && Classify(b.revision, b.text, c.tag, c.attrs).NewSection? then 1 else 0)
  {
    match c {
      case Start(tag, attrs) =>
        ghost var pending := b.Pending();
        ghost var out0 := b.tree.out;
        if b.inProgress.Some? {
          OneLinkPerSection(b.revision, b.text, b.number, b.inProgress.value);
        } else {
          NoLinks(pending);
        }
        b.Start(tag, attrs);
        LinksConcat(out0, pending);
      case End(tag) =>
        b.End(tag);
      case Data(data) =>
        b.Data(data);
    }
  }
}
