/**
 * flexml_to_json.py: the FLEx interlinear export, read as a tree of
 * elements, becomes the dictionary the annotator looks words up in. Every
 * `phrases/word` of every top-level `interlinear-text` is appended, in
 * document order, to the list under its normalised spelling, as a record of
 * the text's short name and the word's gloss.
 */
module FlexExport {
  import opened Wrappers
  import opened Text
  import Common
  import Flexify

  /** A parsed element: tag, attributes, text (`None` when it has none) and children. */
  datatype Elem = Elem(tag: string, attrs: seq<(string, string)>, text: Option<string>, children: seq<Elem>)

  /** Why a conversion stops: a text without a readable title, or a word item without text. */
  datatype ExportError = MissingTitle | TextlessWordItem

  datatype Outcome<+T> = Ok(value: T) | Err(error: ExportError)

  /** The value of an attribute. */
  function Attr(e: Elem, name: string): Option<string> {
    AttrIn(e.attrs, name)
  }

  function AttrIn(attrs: seq<(string, string)>, name: string): Option<string>
    decreases |attrs|
  {
    if |attrs| == 0 then None
    else if attrs[0].0 == name then Some(attrs[0].1)
    else AttrIn(attrs[1..], name)
  }

  // ---------------------------------------------------------------------
  // Paths
  // ---------------------------------------------------------------------

  /** Every element of a forest and all their descendants, in document order. */
  function Forest(es: seq<Elem>): seq<Elem>
    decreases es
  {
    if |es| == 0 then [] else [es[0]] + Forest(es[0].children) + Forest(es[1..])
  }

  /** The descendants of `e` in document order, without `e` itself. */
  function Descendants(e: Elem): seq<Elem> {
    Forest(e.children)
  }

  /** The elements of `es` with tag `tag`, in order. */
  function Tagged(es: seq<Elem>, tag: string): seq<Elem>
    decreases |es|
  {
    if |es| == 0 then []
    else
      var last := es[|es| - 1];
      Tagged(es[..|es| - 1], tag) + (if last.tag == tag then [last] else [])
  }

  /** One path step `es/tag`: the `tag` children of each element of `es`, in order. */
  function Step(es: seq<Elem>, tag: string): seq<Elem>
    decreases |es|
  {
    if |es| == 0 then []
    else Step(es[..|es| - 1], tag) + Tagged(es[|es| - 1].children, tag)
  }

  predicate ItemOfType(e: Elem, itemType: string) {
    e.tag == "item" && Attr(e, "type") == Some(itemType)
  }

  /** The predicate `item[@type='...']` applied to a node list. */
  function ItemsOfType(es: seq<Elem>, itemType: string): seq<Elem>
    decreases |es|
  {
    if |es| == 0 then []
    else
      var last := es[|es| - 1];
      ItemsOfType(es[..|es| - 1], itemType) + (if ItemOfType(last, itemType) then [last] else [])
  }

  /** The filter keeps exactly the matching items. */
  lemma {:induction false} ItemsOfTypeMeaning(es: seq<Elem>, itemType: string)
    ensures forall e :: e in ItemsOfType(es, itemType) <==> e in es && ItemOfType(e, itemType)
    decreases |es|
  {
    if |es| > 0 {
      ItemsOfTypeMeaning(es[..|es| - 1], itemType);
      assert es == es[..|es| - 1] + [es[|es| - 1]];
    }
  }

  /** The filter's first element is the first matching element of the list; it is empty exactly when none matches. */
  lemma {:induction false} FirstOfType(es: seq<Elem>, itemType: string)
    ensures |ItemsOfType(es, itemType)| == 0 <==> forall j :: 0 <= j < |es| ==> !ItemOfType(es[j], itemType)
    ensures |ItemsOfType(es, itemType)| > 0 ==>
      exists i :: 0 <= i < |es| && es[i] == ItemsOfType(es, itemType)[0] && ItemOfType(es[i], itemType)
        && forall j :: 0 <= j < i ==> !ItemOfType(es[j], itemType)
    decreases |es|
  {
    if |es| > 0 {
      var init := es[..|es| - 1];
      FirstOfType(init, itemType);
      if |ItemsOfType(init, itemType)| > 0 {
        var i :| 0 <= i < |init| && init[i] == ItemsOfType(init, itemType)[0] && ItemOfType(init[i], itemType)
          && forall j :: 0 <= j < i ==> !ItemOfType(init[j], itemType);
        assert es[i] == init[i];
        assert forall j :: 0 <= j < i ==> es[j] == init[j];
      } else {
        assert forall j :: 0 <= j < |init| ==> es[j] == init[j];
      }
    }
  }

  /** A first matching element is unique, so any first match is the filter's first element. */
  lemma FirstMatch(es: seq<Elem>, itemType: string, i: nat)
    requires i < |es| && ItemOfType(es[i], itemType)
    requires forall j :: 0 <= j < i ==> !ItemOfType(es[j], itemType)
    ensures |ItemsOfType(es, itemType)| > 0 && ItemsOfType(es, itemType)[0] == es[i]
  {
    FirstOfType(es, itemType);
    var k :| 0 <= k < |es| && es[k] == ItemsOfType(es, itemType)[0] && ItemOfType(es[k], itemType)
      && forall j :: 0 <= j < k ==> !ItemOfType(es[j], itemType);
    assert k == i;
  }

  /** `child.text if child.text else ''`. */
  function TextOr(e: Elem): string {
    if e.text.Some? then e.text.value else ""
  }

  /** `.//phrases/word` under an interlinear text. */
  function WordsOf(t: Elem): seq<Elem> {
    Step(Tagged(Descendants(t), "phrases"), "word")
  }

  /** `words/word/item` under a word. */
  function WordItems(w: Elem): seq<Elem> {
    Step(Step(Step([w], "words"), "word"), "item")
  }

  /** `.//morph/item[@type='...']` under a word. */
  function MorphItems(w: Elem, itemType: string): seq<Elem> {
    ItemsOfType(Step(Tagged(Descendants(w), "morph"), "item"), itemType)
  }

  // ---------------------------------------------------------------------
  // Reading a word and a text
  // ---------------------------------------------------------------------

  /** `get_text_name`: the first title abbreviation, lower-cased, with its spaces removed. */
  function TextName(t: Elem): (r: Outcome<string>)
    ensures r.Ok? ==> ' ' !in r.value
  {
    var titles := ItemsOfType(Descendants(t), "title-abbreviation");
    if |titles| == 0 || titles[0].text.None? then Err(MissingTitle)
    else
      ReplaceCharByNothing(Lower(titles[0].text.value), ' ');
      Ok(Replace(Lower(titles[0].text.value), " ", ""))
  }

  /**
   * A text without a title abbreviation has no name; otherwise the name is the
   * text of the first title abbreviation in document order, lower-cased and with
   * its spaces removed, and a first abbreviation without text is an error.
   */
  lemma TextNameMeaning(t: Elem)
    ensures (forall e :: e in Descendants(t) ==> !ItemOfType(e, "title-abbreviation")) ==> TextName(t) == Err(MissingTitle)
    ensures forall i :: (0 <= i < |Descendants(t)| && ItemOfType(Descendants(t)[i], "title-abbreviation")
                         && forall j :: 0 <= j < i ==> !ItemOfType(Descendants(t)[j], "title-abbreviation")) ==>
        TextName(t) == (if Descendants(t)[i].text.None? then Err(MissingTitle)
                        else Ok(Replace(Lower(Descendants(t)[i].text.value), " ", "")))
    ensures TextName(t).Ok? ==> exists e :: e in Descendants(t) && ItemOfType(e, "title-abbreviation") && e.text.Some?
  {
    var titles := ItemsOfType(Descendants(t), "title-abbreviation");
    ItemsOfTypeMeaning(Descendants(t), "title-abbreviation");
    if |titles| > 0 && titles[0].text.Some? {
      assert titles[0] in titles;
    }
    forall i | 0 <= i < |Descendants(t)| && ItemOfType(Descendants(t)[i], "title-abbreviation")
      && (forall j :: 0 <= j < i ==> !ItemOfType(Descendants(t)[j], "title-abbreviation"))
      ensures TextName(t) == (if Descendants(t)[i].text.None? then Err(MissingTitle)
                              else Ok(Replace(Lower(Descendants(t)[i].text.value), " ", "")))
    {
      FirstMatch(Descendants(t), "title-abbreviation", i);
    }
  }

  /** The texts of some elements; an element without text is an error. */
  function Texts(es: seq<Elem>): Outcome<seq<string>>
    decreases |es|
  {
    if |es| == 0 then Ok([])
    else
      var last := es[|es| - 1];
      match Texts(es[..|es| - 1])
      case Err(e) => Err(e)
      case Ok(ts) => if last.text.None? then Err(TextlessWordItem) else Ok(ts + [last.text.value])
  }

  /** The texts are there exactly when every element has one, and come in the elements' order. */
  lemma {:induction false} TextsMeaning(es: seq<Elem>)
    ensures Texts(es).Ok? <==> forall i :: 0 <= i < |es| ==> es[i].text.Some?
    ensures Texts(es).Ok? ==> |Texts(es).value| == |es| && forall i :: 0 <= i < |es| ==> Some(Texts(es).value[i]) == es[i].text
    decreases |es|
  {
    if |es| > 0 {
      var init := es[..|es| - 1];
      TextsMeaning(init);
      if !(forall i :: 0 <= i < |init| ==> init[i].text.Some?) {
        var i :| 0 <= i < |init| && init[i].text.None?;
        assert es[i].text.None?;
      }
    }
  }

  /** `find_word_name`: the word's item texts joined with single spaces. */
  function WordName(w: Elem): (r: Outcome<string>)
    ensures r.Ok? <==> forall i :: 0 <= i < |WordItems(w)| ==> WordItems(w)[i].text.Some?
  {
    TextsMeaning(WordItems(w));
    match Texts(WordItems(w))
    case Err(e) => Err(e)
    case Ok(ts) => Ok(Join(ts, " "))
  }

  /** `find_item`: the text of the first matching item below `p`, or `''`. */
  function FindItem(p: Elem, itemType: string): (r: string)
    ensures r != "" ==> exists e :: e in Descendants(p) && ItemOfType(e, itemType) && e.text == Some(r)
  {
    var items := ItemsOfType(Descendants(p), itemType);
    ItemsOfTypeMeaning(Descendants(p), itemType);
    if |items| == 0 then "" else assert items[0] in items; TextOr(items[0])
  }

  /**
   * With no matching item the result is `''`; otherwise it is the text of the
   * first matching item in document order, or `''` when that item has none.
   */
  lemma FindItemMeaning(p: Elem, itemType: string)
    ensures (forall e :: e in Descendants(p) ==> !ItemOfType(e, itemType)) ==> FindItem(p, itemType) == ""
    ensures forall i :: (0 <= i < |Descendants(p)| && ItemOfType(Descendants(p)[i], itemType)
                         && forall j :: 0 <= j < i ==> !ItemOfType(Descendants(p)[j], itemType)) ==>
        (Descendants(p)[i].text.None? ==> FindItem(p, itemType) == "")
        && (Descendants(p)[i].text.Some? ==> FindItem(p, itemType) == Descendants(p)[i].text.value)
  {
    var items := ItemsOfType(Descendants(p), itemType);
    ItemsOfTypeMeaning(Descendants(p), itemType);
    if |items| > 0 {
      assert items[0] in items;
    }
    forall i | 0 <= i < |Descendants(p)| && ItemOfType(Descendants(p)[i], itemType)
      && (forall j :: 0 <= j < i ==> !ItemOfType(Descendants(p)[j], itemType))
      ensures (Descendants(p)[i].text.None? ==> FindItem(p, itemType) == "")
        && (Descendants(p)[i].text.Some? ==> FindItem(p, itemType) == Descendants(p)[i].text.value)
    {
      FirstMatch(Descendants(p), itemType, i);
    }
  }

  /** `find_all_items`: one string per matching morph item, in order, `''` for a textless one. */
  function FindAllItems(p: Elem, itemType: string): (r: seq<string>)
    ensures |r| == |MorphItems(p, itemType)|
  {
    TextsOrMeaning(MorphItems(p, itemType));
    TextsOr(MorphItems(p, itemType))
  }

  /** `[(e.text if e.text else '') for e in es]`. */
  function TextsOr(es: seq<Elem>): seq<string>
    decreases |es|
  {
    if |es| == 0 then [] else TextsOr(es[..|es| - 1]) + [TextOr(es[|es| - 1])]
  }

  /** One string per element, its text or `''`. */
  lemma {:induction false} TextsOrMeaning(es: seq<Elem>)
    ensures |TextsOr(es)| == |es|
    ensures forall i :: 0 <= i < |es| ==>
      (es[i].text.Some? ==> Some(TextsOr(es)[i]) == es[i].text) && (es[i].text.None? ==> TextsOr(es)[i] == "")
    decreases |es|
  {
    if |es| > 0 {
      TextsOrMeaning(es[..|es| - 1]);
    }
  }

  /** One string per matching morph item, its text or `''`. */
  lemma FindAllItemsMeaning(p: Elem, itemType: string)
    ensures forall i :: 0 <= i < |MorphItems(p, itemType)| ==>
      (MorphItems(p, itemType)[i].text.Some? ==> Some(FindAllItems(p, itemType)[i]) == MorphItems(p, itemType)[i].text)
      && (MorphItems(p, itemType)[i].text.None? ==> FindAllItems(p, itemType)[i] == "")
  {
    TextsOrMeaning(MorphItems(p, itemType));
  }

  /** `make_flex_object`: the gloss with its four fields. */
  function MakeFlexObject(w: Elem): (r: Outcome<Flexify.Flex>)
    ensures r.Ok? <==> WordName(w).Ok?
    ensures r.Ok? ==> r.value.Gloss? && r.value.name == WordName(w).value
    ensures r.Ok? ==> |r.value.morphs| == |MorphItems(w, "txt")| && |r.value.lexGlosses| == |MorphItems(w, "gls")|
  {
    match WordName(w)
    case Err(e) => Err(e)
    case Ok(name) =>
      Ok(Flexify.Gloss(name, FindAllItems(w, "txt"), FindAllItems(w, "gls"), FindItem(w, "lit")))
  }

  /** Splitting a joined name at the separator gives its parts back, if none contains it. */
  lemma {:induction false} SplitJoin(parts: seq<string>, sep: char)
    requires |parts| >= 1
    requires forall i :: 0 <= i < |parts| ==> sep !in parts[i]
    ensures Split(Join(parts, [sep]), sep) == parts
    decreases |parts|
  {
    if |parts| == 1 {
      SplitFree(parts[0], sep);
    } else {
      SplitJoin(parts[1..], sep);
      SplitAround(parts[0], sep, Join(parts[1..], [sep]));
      assert Join(parts, [sep]) == parts[0] + [sep] + Join(parts[1..], [sep]);
      assert [parts[0]] + parts[1..] == parts;
    }
  }

  lemma {:induction false} SplitFree(s: string, sep: char)
    requires sep !in s
    ensures Split(s, sep) == [s]
    decreases |s|
  {
    if |s| > 0 {
      SplitFree(s[1..], sep);
      assert [s[0]] + s[1..] == s;
    }
  }

  lemma {:induction false} SplitAround(a: string, sep: char, b: string)
    requires sep !in a
    ensures Split(a + [sep] + b, sep) == [a] + Split(b, sep)
    decreases |a|
  {
    if |a| == 0 {
      assert a + [sep] + b == [sep] + b;
      assert ([sep] + b)[1..] == b;
    } else {
      SplitAround(a[1..], sep, b);
      assert (a + [sep] + b)[1..] == a[1..] + [sep] + b;
      assert [a[0]] + a[1..] == a;
    }
  }

  /** A word's name splits back into its item texts when none of them holds a space. */
  lemma WordNameSplits(w: Elem)
    requires Texts(WordItems(w)).Ok? && |WordItems(w)| >= 1
    requires forall i :: 0 <= i < |WordItems(w)| ==> ' ' !in TextOr(WordItems(w)[i])
    ensures Split(WordName(w).value, ' ') == Texts(WordItems(w)).value
  {
    var ts := Texts(WordItems(w)).value;
    TextsMeaning(WordItems(w));
    forall i | 0 <= i < |ts| ensures ' ' !in ts[i] {
      assert Some(ts[i]) == WordItems(w)[i].text;
    }
    SplitJoin(ts, ' ');
  }

  // ---------------------------------------------------------------------
  // Grouping
  // ---------------------------------------------------------------------

  /** One word: its key and its record, or the error reading it raises. */
  function WordEntry(section: string, w: Elem): Outcome<(string, Flexify.Record)> {
    match MakeFlexObject(w)
    case Err(e) => Err(e)
    case Ok(flex) => Ok((Common.Normalize(flex.name), Flexify.Record(section, flex)))
  }

  /**
   * A word that can be read becomes a gloss named after its items, with one
   * morpheme and one lexical gloss per morph item, filed under the
   * normalised form of that name and in the given section.
   */
  lemma WordEntryMeaning(section: string, w: Elem)
    ensures WordEntry(section, w).Ok? <==> WordName(w).Ok?
    ensures WordEntry(section, w).Ok? ==>
      var x := WordEntry(section, w).value;
      x.1.section == section && x.1.flex.Gloss? && x.1.flex.name == WordName(w).value
      && x.0 == Common.Normalize(x.1.flex.name)
      && |x.1.flex.morphs| == |MorphItems(w, "txt")| && |x.1.flex.lexGlosses| == |MorphItems(w, "gls")|
  {
    FindAllItemsMeaning(w, "txt");
    FindAllItemsMeaning(w, "gls");
  }

  /** The entries of some words of one text, in order, up to the first error. */
  function WordEntries(section: string, ws: seq<Elem>): Outcome<seq<(string, Flexify.Record)>>
    decreases |ws|
  {
    if |ws| == 0 then Ok([])
    else match WordEntries(section, ws[..|ws| - 1])
      case Err(e) => Err(e)
      case Ok(es) =>
        match WordEntry(section, ws[|ws| - 1])
        case Err(e) => Err(e)
        case Ok(x) => Ok(es + [x])
  }

  /** The entries of one interlinear text. */
  function TextEntries(t: Elem): Outcome<seq<(string, Flexify.Record)>> {
    match TextName(t)
    case Err(e) => Err(e)
    case Ok(name) => WordEntries(name, WordsOf(t))
  }

  /** The entries of some texts, in document order, up to the first error. */
  function Entries(ts: seq<Elem>): Outcome<seq<(string, Flexify.Record)>>
    decreases |ts|
  {
    if |ts| == 0 then Ok([])
    else match Entries(ts[..|ts| - 1])
      case Err(e) => Err(e)
      case Ok(es) =>
        match TextEntries(ts[|ts| - 1])
        case Err(e) => Err(e)
        case Ok(more) => Ok(es + more)
  }

  /** `ret[key].append(record)` for each entry in turn, on a `defaultdict(list)`. */
  function Grouped(es: seq<(string, Flexify.Record)>): Flexify.FlexDict
    decreases |es|
  {
    if |es| == 0 then map[]
    else
      var g := Grouped(es[..|es| - 1]);
      var (k, r) := es[|es| - 1];
      g[k := Flexify.Records(g, k) + [r]]
  }

  /** The records of the entries under `key`, in order. */
  function RecordsFor(es: seq<(string, Flexify.Record)>, key: string): seq<Flexify.Record>
    decreases |es|
  {
    if |es| == 0 then []
    else RecordsFor(es[..|es| - 1], key) + (if es[|es| - 1].0 == key then [es[|es| - 1].1] else [])
  }

  /**
   * The dictionary has a key exactly for the keys that occur, and under
   * each key all of its records in the order they occur: nothing skipped,
   * nothing merged.
   */
  lemma {:induction false} GroupedIsFilter(es: seq<(string, Flexify.Record)>, key: string)
    ensures key in Grouped(es) <==> exists i :: 0 <= i < |es| && es[i].0 == key
    ensures Flexify.Records(Grouped(es), key) == RecordsFor(es, key)
    decreases |es|
  {
    if |es| > 0 {
      var init := es[..|es| - 1];
      GroupedIsFilter(init, key);
      if key in Grouped(init) {
        var i :| 0 <= i < |init| && init[i].0 == key;
        assert es[i].0 == key;
      }
      if exists i :: 0 <= i < |es| && es[i].0 == key {
        var i :| 0 <= i < |es| && es[i].0 == key;
        if i < |es| - 1 {
          assert init[i].0 == key;
        }
      }
    }
  }

  /** `convert_flex_data_to_json` on the root of a parsed export. */
  function Convert(root: Elem): (r: Outcome<Flexify.FlexDict>)
    ensures r.Ok? <==> Entries(Tagged(root.children, "interlinear-text")).Ok?
    ensures r.Ok? ==> forall key :: key in r.value <==>
      exists i :: 0 <= i < |Entries(Tagged(root.children, "interlinear-text")).value|
        && Entries(Tagged(root.children, "interlinear-text")).value[i].0 == key
    ensures r.Ok? ==> forall key ::
      Flexify.Records(r.value, key) == RecordsFor(Entries(Tagged(root.children, "interlinear-text")).value, key)
  {
    match Entries(Tagged(root.children, "interlinear-text"))
    case Err(e) => Err(e)
    case Ok(es) => GroupedIsFilterAll(es); Ok(Grouped(es))
  }

  lemma GroupedIsFilterAll(es: seq<(string, Flexify.Record)>)
    ensures forall key :: key in Grouped(es) <==> exists i :: 0 <= i < |es| && es[i].0 == key
    ensures forall key :: Flexify.Records(Grouped(es), key) == RecordsFor(es, key)
  {
    forall key ensures (key in Grouped(es) <==> exists i :: 0 <= i < |es| && es[i].0 == key)
      && Flexify.Records(Grouped(es), key) == RecordsFor(es, key)
    {
      GroupedIsFilter(es, key);
    }
  }

  /** Every entry is keyed by the normalised name of its own gloss, and its section has no spaces. */
  lemma {:induction false} WordEntriesKeyed(section: string, ws: seq<Elem>)
    requires WordEntries(section, ws).Ok?
    ensures forall x :: x in WordEntries(section, ws).value ==>
      x.1.section == section && x.1.flex.Gloss? && x.0 == Common.Normalize(x.1.flex.name)
    decreases |ws|
  {
    if |ws| > 0 {
      WordEntriesKeyed(section, ws[..|ws| - 1]);
      WordEntryMeaning(section, ws[|ws| - 1]);
    }
  }

  lemma {:induction false} EntriesKeyed(ts: seq<Elem>)
    requires Entries(ts).Ok?
    ensures forall x :: x in Entries(ts).value ==>
      ' ' !in x.1.section && x.1.flex.Gloss? && x.0 == Common.Normalize(x.1.flex.name)
    decreases |ts|
  {
    if |ts| > 0 {
      EntriesKeyed(ts[..|ts| - 1]);
      var t := ts[|ts| - 1];
      var name := TextName(t).value;
      TextNameMeaning(t);
      WordEntriesKeyed(name, WordsOf(t));
    }
  }

  /**
   * A converted export files each word where the annotator looks it up:
   * every record is among the records under the normalised form of its
   * own name.
   */
  lemma ExportedWordsAreFound(root: Elem, x: (string, Flexify.Record))
    requires Entries(Tagged(root.children, "interlinear-text")).Ok?
    requires x in Entries(Tagged(root.children, "interlinear-text")).value
    ensures Convert(root).Ok?
    ensures x.1.flex.Gloss? && x.1 in Flexify.Records(Convert(root).value, Common.Normalize(x.1.flex.name))
  {
    var es := Entries(Tagged(root.children, "interlinear-text")).value;
    EntriesKeyed(Tagged(root.children, "interlinear-text"));
    GroupedIsFilter(es, x.0);
    RecordInFilter(es, x);
  }

  lemma {:induction false} RecordInFilter(es: seq<(string, Flexify.Record)>, x: (string, Flexify.Record))
    requires x in es
    ensures x.1 in RecordsFor(es, x.0)
    decreases |es|
  {
    if es[|es| - 1] != x {
      assert x in es[..|es| - 1] by {
        var i :| 0 <= i < |es| && es[i] == x;
        assert es[..|es| - 1][i] == x;
      }
      RecordInFilter(es[..|es| - 1], x);
    }
  }

  /** A failure in a prefix of the words is the failure of all of them. */
  lemma {:induction false} WordErrorSticks(section: string, ws: seq<Elem>, n: nat)
    requires n <= |ws| && WordEntries(section, ws[..n]).Err?
    ensures WordEntries(section, ws) == WordEntries(section, ws[..n])
    decreases |ws| - n
  {
    if n < |ws| {
      assert ws[..n + 1][..n] == ws[..n];
      WordErrorSticks(section, ws, n + 1);
    } else {
      assert ws[..n] == ws;
    }
  }

  /** A failure in a prefix of the texts is the failure of all of them. */
  lemma {:induction false} TextErrorSticks(ts: seq<Elem>, n: nat)
    requires n <= |ts| && Entries(ts[..n]).Err?
    ensures Entries(ts) == Entries(ts[..n])
    decreases |ts| - n
  {
    if n < |ts| {
      assert ts[..n + 1][..n] == ts[..n];
      TextErrorSticks(ts, n + 1);
    } else {
      assert ts[..n] == ts;
    }
  }

  /** The body of the per-word loop: reads one word and appends its record under its key. */
  method AddWord(d: Flexify.FlexDict, ghost prior: seq<(string, Flexify.Record)>, section: string, w: Elem)
      returns (r: Outcome<Flexify.FlexDict>, ghost x: (string, Flexify.Record))
    requires d == Grouped(prior)
    ensures r.Err? <==> WordEntry(section, w).Err?
    ensures r.Err? ==> r.error == WordEntry(section, w).error
    ensures r.Ok? ==> WordEntry(section, w) == Ok(x) && r.value == Grouped(prior + [x])
  {
    var wordName := WordName(w);
    if wordName.Err? {
      return Err(wordName.error), ("", Flexify.Record(section, Flexify.Empty));
    }
    var key := Common.StripAccentsAndSpaces(wordName.value);
    var flex := MakeFlexObject(w);
    var record := Flexify.Record(section, flex.value);
    x := (key, record);
    assert (prior + [x])[..|prior|] == prior;
    r := Ok(d[key := Flexify.Records(d, key) + [record]]);
  }

  lemma WordEntriesSnoc(section: string, ws: seq<Elem>, j: nat, es: seq<(string, Flexify.Record)>, x: (string, Flexify.Record))
    requires j < |ws| && WordEntries(section, ws[..j]) == Ok(es) && WordEntry(section, ws[j]) == Ok(x)
    ensures WordEntries(section, ws[..j + 1]) == Ok(es + [x])
  {
    assert ws[..j + 1][..j] == ws[..j];
  }

  /** The first word that cannot be read decides the outcome of its text. */
  lemma WordFailure(section: string, ws: seq<Elem>, j: nat, es: seq<(string, Flexify.Record)>)
    requires j < |ws| && WordEntries(section, ws[..j]) == Ok(es) && WordEntry(section, ws[j]).Err?
    ensures WordEntries(section, ws) == Err(WordEntry(section, ws[j]).error)
  {
    assert ws[..j + 1][..j] == ws[..j];
    WordErrorSticks(section, ws, j + 1);
  }

  /** The inner loop of `convert_flex_data_to_json`: every word of one text, in order. */
  method AddWords(ret: Flexify.FlexDict, ghost done: seq<(string, Flexify.Record)>, section: string, words: seq<Elem>)
      returns (r: Outcome<Flexify.FlexDict>, ghost here: seq<(string, Flexify.Record)>)
    requires ret == Grouped(done)
    ensures r.Err? ==> WordEntries(section, words) == Err(r.error)
    ensures r.Ok? ==> WordEntries(section, words) == Ok(here) && r.value == Grouped(done + here)
  {
    here := [];
    var d := ret;
    ghost var all := done;
    for j := 0 to |words|
      invariant WordEntries(section, words[..j]) == Ok(here)
      invariant all == done + here
      invariant d == Grouped(all)
    {
      var step;
      ghost var x;
      step, x := AddWord(d, all, section, words[j]);
      if step.Err? {
        WordFailure(section, words, j, here);
        return Err(step.error), here;
      }
      WordEntriesSnoc(section, words, j, here, x);
      d := step.value;
      all := all + [x];
      here := here + [x];
    }
    assert words[..|words|] == words;
    r := Ok(d);
  }

  /** The body of the outer loop: one interlinear text. */
  method AddText(ret: Flexify.FlexDict, ghost done: seq<(string, Flexify.Record)>, t: Elem)
      returns (r: Outcome<Flexify.FlexDict>, ghost here: seq<(string, Flexify.Record)>)
    requires ret == Grouped(done)
    ensures r.Err? ==> TextEntries(t) == Err(r.error)
    ensures r.Ok? ==> TextEntries(t) == Ok(here) && r.value == Grouped(done + here)
  {
    var name := TextName(t);
    if name.Err? {
      return Err(name.error), [];
    }
    r, here := AddWords(ret, done, name.value, WordsOf(t));
  }

  /** `convert_flex_data_to_json`: groups every word of every text under its normalised spelling. */
  method ConvertFlexData(root: Elem) returns (r: Outcome<Flexify.FlexDict>)
    ensures r == Convert(root)
  {
    var texts := Tagged(root.children, "interlinear-text");
    var ret: Flexify.FlexDict := map[];
    ghost var done: seq<(string, Flexify.Record)> := [];
    for i := 0 to |texts|
      invariant Entries(texts[..i]) == Ok(done)
      invariant ret == Grouped(done)
    {
      assert texts[..i + 1][..i] == texts[..i];
      var step;
      ghost var here;
      step, here := AddText(ret, done, texts[i]);
      if step.Err? {
        TextErrorSticks(texts, i + 1);
        return Err(step.error);
      }
      ret := step.value;
      done := done + here;
    }
    assert texts[..|texts|] == texts;
    r := Ok(ret);
  }

  // ---------------------------------------------------------------------
  // Table rows
  // ---------------------------------------------------------------------

  /** `''.join('<td>' + e + '</td>' for e in entries)`. */
  function Tds(entries: seq<string>): string
    decreases |entries|
  {
    if |entries| == 0 then ""
    else Tds(entries[..|entries| - 1]) + Td(entries[|entries| - 1])
  }

  function Td(entry: string): string {
    "<td>" + entry + "</td>"
  }

  /** `make_table_row`. */
  function MakeTableRow(entries: seq<string>): (r: string)
    ensures StartsWith(r, "<tr>") && EndsWith(r, "</tr>")
  {
    "<tr>" + Tds(entries) + "</tr>"
  }

  /** The cells of a row are the cells of its parts, one after the other. */
  lemma {:induction false} TdsConcat(a: seq<string>, b: seq<string>)
    ensures Tds(a + b) == Tds(a) + Tds(b)
    decreases |b|
  {
    if |b| == 0 {
      assert a + b == a;
    } else {
      var init, last := b[..|b| - 1], b[|b| - 1];
      TdsConcat(a, init);
      TdsSnocAssoc(a, init, last);
      assert init + [last] == b;
    }
  }

  lemma TdsSnocAssoc(a: seq<string>, init: seq<string>, last: string)
    requires Tds(a + init) == Tds(a) + Tds(init)
    ensures Tds(a + (init + [last])) == Tds(a) + Tds(init + [last])
  {
    assert a + (init + [last]) == (a + init) + [last];
    TdsSnoc(a + init, last);
    TdsSnoc(init, last);
    var x, y, z := Tds(a), Tds(init), Td(last);
    assert x + y + z == x + (y + z);
  }

  lemma TdsSnoc(es: seq<string>, e: string)
    ensures Tds(es + [e]) == Tds(es) + Td(e)
  {
    assert (es + [e])[..|es|] == es;
  }

  /** Each entry takes nine characters of markup besides its own text. */
  lemma {:induction false} TableRowLength(entries: seq<string>)
    ensures |MakeTableRow(entries)| == 9 + 9 * |entries| + TotalLength(entries)
    decreases |entries|
  {
    if |entries| > 0 {
      TableRowLength(entries[..|entries| - 1]);
    }
  }

  /** The cells come one per entry, in order: entry `i` is wrapped in `<td>` and `</td>` after the cells of the entries before it. */
  lemma TableRowCell(entries: seq<string>, i: nat)
    requires i < |entries|
    ensures var o := 4 + 9 * i + TotalLength(entries[..i]);
      o + 9 + |entries[i]| <= |MakeTableRow(entries)|
      && MakeTableRow(entries)[o..o + 9 + |entries[i]|] == "<td>" + entries[i] + "</td>"
  {
    var pre, post := entries[..i], entries[i + 1..];
    assert entries == pre + [entries[i]] + post;
    TdsConcat(pre + [entries[i]], post);
    TdsSnoc(pre, entries[i]);
    TableRowLength(pre);
    TableRowLength(entries);
    var a, b, c := Tds(pre), Td(entries[i]), Tds(post);
    assert MakeTableRow(entries) == "<tr>" + a + b + c + "</tr>";
    assert |a| == 9 * i + TotalLength(pre);
    assert MakeTableRow(entries)[4 + |a|..4 + |a| + |b|] == b;
  }

  function TotalLength(entries: seq<string>): nat
    decreases |entries|
  {
    if |entries| == 0 then 0 else TotalLength(entries[..|entries| - 1]) + |entries[|entries| - 1]|
  }
}
