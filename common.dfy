/**
 * The helpers every stage of the converter shares (common.py): tag comparison
 * that ignores a namespace prefix, the normalisation that turns a transcribed
 * word into a dictionary key, and the file-name inference of the command line.
 */
module Common {
  import opened Wrappers
  import opened Text

  /**
   * `tag_eq(tag_in_document, tag_to_check)`: the document's tag either is the
   * literal or ends in `:` followed by it. The literal never carries a prefix,
   * so the two arguments play different roles.
   */
  predicate TagEq(tagInDocument: string, tagToCheck: string) {
    tagInDocument == tagToCheck || EndsWith(tagInDocument, ":" + tagToCheck)
  }

  /** A tag matches exactly when it is the literal, or some prefix, a colon and the literal. */
  lemma TagEqMeansLocalName(d: string, l: string)
    ensures TagEq(d, l) <==> d == l || exists p :: d == p + ":" + l
  {
    if EndsWith(d, ":" + l) {
      var p := d[..|d| - |l| - 1];
      assert d == p + ":" + l;
    }
    forall p | d == p + ":" + l
      ensures EndsWith(d, ":" + l)
    {
      assert d[|d| - |l| - 1..] == ":" + l;
    }
  }

  /** Every tag matches itself, a prefixed tag matches its local name, but not the other way round. */
  lemma TagEqNotCommutative()
    ensures forall t :: TagEq(t, t)
    ensures TagEq("tei:pb", "pb") && !TagEq("pb", "tei:pb")
  {
    assert "tei:pb"[6 - 3..] == ":pb";
  }

  /** A matching tag ends with the same character as the name it is checked against. */
  lemma TagEqLast(tagInDocument: string, tagToCheck: string)
    requires |tagToCheck| > 0 && TagEq(tagInDocument, tagToCheck)
    ensures |tagInDocument| > 0 && tagInDocument[|tagInDocument| - 1] == tagToCheck[|tagToCheck| - 1]
  {
    if tagInDocument != tagToCheck {
      var suffix := ":" + tagToCheck;
      assert tagInDocument[|tagInDocument| - |suffix|..] == suffix;
      assert tagInDocument[|tagInDocument| - 1] == suffix[|suffix| - 1];
    }
  }

  /** A `body` tag is neither a page break nor a column break, in any namespace. */
  lemma BodyIsNoMarker(qname: string)
    requires TagEq(qname, "body")
    ensures !TagEq(qname, "pb") && !TagEq(qname, "cb")
  {
    TagEqLast(qname, "body");
    if TagEq(qname, "pb") {
      TagEqLast(qname, "pb");
    }
    if TagEq(qname, "cb") {
      TagEqLast(qname, "cb");
    }
  }

  /**
   * The accent table, in the order Python's dict literal iterates it (the two
   * spellings of a-tilde are the precomposed U+00E3 and `a` + U+0303).
   */
  const AccentTable: seq<(string, string)> := [
    ("\U{1CE}", "a"), ("a\U{303}", "a"), ("\U{E1}", "a"), ("\U{E4}", "a"), ("\U{E0}", "a"),
    ("\U{E3}", "a"), ("\U{101}", "a"), ("\U{E9}", "e"), ("\U{11B}", "e"), ("\U{E8}", "e"),
    ("\U{113}", "e"), ("\U{EF}", "i"), ("\U{ED}", "i"), ("\U{EE}", "i"), ("\U{EC}", "i"),
    ("\U{F3}", "o"), ("\U{F6}", "o"), ("\U{1D2}", "o"), ("\U{F4}", "o"), ("\U{F5}", "o"),
    ("q\U{303}", "q"), ("q\U{303}\U{303}", "q"), ("q~", "que"), ("\U{17F}", "s"),
    ("\U{FB}", "u"), ("\U{1D4}", "u"), ("\U{FA}", "u")
  ]

  predicate NonEmptyKeys(table: seq<(string, string)>) {
    forall i :: 0 <= i < |table| ==> |table[i].0| > 0
  }

  /** The table's replacements applied one after the other, first entry first. */
  function ReplaceAll(s: string, table: seq<(string, string)>): string
    requires NonEmptyKeys(table)
    decreases |table|
  {
    if |table| == 0 then s
    else
      var last := table[|table| - 1];
      Replace(ReplaceAll(s, table[..|table| - 1]), last.0, last.1)
  }

  lemma {:induction false} ReplaceAllConcat(s: string, t1: seq<(string, string)>, t2: seq<(string, string)>)
    requires NonEmptyKeys(t1) && NonEmptyKeys(t2)
    ensures NonEmptyKeys(t1 + t2)
    ensures ReplaceAll(s, t1 + t2) == ReplaceAll(ReplaceAll(s, t1), t2)
    decreases |t2|
  {
    if |t2| > 0 {
      assert (t1 + t2)[..|t1 + t2| - 1] == t1 + t2[..|t2| - 1];
      ReplaceAllConcat(s, t1, t2[..|t2| - 1]);
    } else {
      assert t1 + t2 == t1;
    }
  }

  /** Entries whose key does not occur leave the string alone. */
  lemma {:induction false} ReplaceAllAbsent(s: string, table: seq<(string, string)>)
    requires NonEmptyKeys(table)
    requires forall i :: 0 <= i < |table| ==> !Contains(s, table[i].0)
    ensures ReplaceAll(s, table) == s
    decreases |table|
  {
    if |table| > 0 {
      ReplaceAllAbsent(s, table[..|table| - 1]);
      ReplaceAbsent(s, table[|table| - 1].0, table[|table| - 1].1);
    }
  }

  /** Length of the run of `\w` characters at the start of `s`. */
  function WordRun(s: string): (n: nat)
    ensures n <= |s|
    ensures forall i :: 0 <= i < n ==> IsWordChar(s[i])
    ensures n < |s| ==> !IsWordChar(s[n])
    decreases |s|
  {
    if |s| > 0 && IsWordChar(s[0]) then 1 + WordRun(s[1..]) else 0
  }

  /** Length of the match of `\[\w+\]` at the start of `s`, or 0 when there is none. */
  function BracketRun(s: string): (n: nat)
    ensures n == 0 || (3 <= n <= |s| && s[0] == '[' && s[n - 1] == ']')
    ensures n > 0 <==> |s| > 0 && s[0] == '[' && 0 < WordRun(s[1..]) && 1 + WordRun(s[1..]) < |s|
                       && s[1 + WordRun(s[1..])] == ']'
    ensures n > 0 ==> n == WordRun(s[1..]) + 2
  {
    if |s| > 0 && s[0] == '[' then
      var k := WordRun(s[1..]);
      if k > 0 && 1 + k < |s| && s[1 + k] == ']' then k + 2 else 0
    else 0
  }

  /** `re.sub(r'\[\w+\]', '', s)`: bracketed editorial insertions deleted, scanning left to right. */
  function DeleteBracketed(s: string): (r: string)
    ensures forall i :: 0 <= i < |r| ==> r[i] in s
    decreases |s|
  {
    if |s| == 0 then ""
    else
      var m := BracketRun(s);
      if m > 0 then DeleteBracketed(s[m..]) else [s[0]] + DeleteBracketed(s[1..])
  }

  /** The punctuation the normaliser drops: , . [ ] ' ? * U+2019 - */
  const Punctuation: set<char> := {',', '.', '[', ']', '\'', '?', '*', '\U{2019}', '-'}

  function StripPunctuation(s: string): (r: string)
    ensures forall i :: 0 <= i < |r| ==> r[i] in s && r[i] !in Punctuation
    ensures |s| == 1 ==> r == (if s[0] in Punctuation then "" else s)
    decreases |s|
  {
    if |s| == 0 then ""
    else if s[0] in Punctuation then StripPunctuation(s[1..])
    else [s[0]] + StripPunctuation(s[1..])
  }

  /** The filter works character by character: it distributes over concatenation. */
  lemma {:induction false} StripPunctuationConcat(a: string, b: string)
    ensures StripPunctuation(a + b) == StripPunctuation(a) + StripPunctuation(b)
    decreases |a|
  {
    if |a| > 0 {
      assert (a + b)[1..] == a[1..] + b;
      StripPunctuationConcat(a[1..], b);
    } else {
      assert a + b == b;
    }
  }

  /** Text before the first `[` comes through the deletion as it is. */
  lemma {:induction false} DeleteBracketedKeepsPrefix(a: string, b: string)
    requires forall i :: 0 <= i < |a| ==> a[i] != '['
    ensures DeleteBracketed(a + b) == a + DeleteBracketed(b)
    decreases |a|
  {
    if |a| > 0 {
      var s := a + b;
      DeleteBracketedKeepsFirst(s);
      assert s[1..] == a[1..] + b;
      DeleteBracketedKeepsPrefix(a[1..], b);
    } else {
      assert a + b == b;
    }
  }

  /** Text without a `[` comes through unchanged. */
  lemma NoBracketUnchanged(s: string)
    requires forall i :: 0 <= i < |s| ==> s[i] != '['
    ensures DeleteBracketed(s) == s
  {
    DeleteBracketedKeepsPrefix(s, "");
    assert s + "" == s;
  }

  /** A character other than `[` is kept, and scanning goes on after it. */
  lemma DeleteBracketedKeepsFirst(s: string)
    requires |s| > 0 && s[0] != '['
    ensures DeleteBracketed(s) == [s[0]] + DeleteBracketed(s[1..])
  {
    assert BracketRun(s) == 0;
  }

  /** A `[` that starts no bracketed word is kept, and scanning goes on after it. */
  lemma DeleteBracketedKeepsUnmatched(s: string)
    requires |s| > 0 && s[0] == '[' && BracketRun(s) == 0
    ensures DeleteBracketed(s) == [s[0]] + DeleteBracketed(s[1..])
  {
  }

  /** A `[`, a run of word characters and a `]` are deleted together; scanning resumes after them. */
  lemma DeleteBracketedDropsMatch(w: string, b: string)
    requires |w| > 0 && forall i :: 0 <= i < |w| ==> IsWordChar(w[i])
    ensures DeleteBracketed("[" + w + "]" + b) == DeleteBracketed(b)
  {
    var s := "[" + w + "]" + b;
    WordRunOfWord(w, "]" + b);
    assert s[1..] == w + ("]" + b);
    assert s[1 + |w|] == ']';
    assert s[|w| + 2..] == b;
  }

  lemma {:induction false} WordRunOfWord(w: string, rest: string)
    requires forall i :: 0 <= i < |w| ==> IsWordChar(w[i])
    requires |rest| > 0 && !IsWordChar(rest[0])
    ensures WordRun(w + rest) == |w|
    decreases |w|
  {
    if |w| > 0 {
      assert (w + rest)[1..] == w[1..] + rest;
      WordRunOfWord(w[1..], rest);
    } else {
      assert w + rest == rest;
    }
  }

  /** The five steps of `strip_accents_and_spaces`, in the source's order. */
  function Normalize(s: string): string
  {
    StripPunctuation(DeleteBracketed(Lower(RemoveSpaces(ReplaceAll(s, AccentTable)))))
  }

  /**
   * `strip_accents_and_spaces(s)`: the accent table is applied entry by entry,
   * rebinding the string each time, then the remaining steps run in order.
   */
  method StripAccentsAndSpaces(s: string) returns (r: string)
    ensures r == Normalize(s)
  {
    var t := ApplyTable(s, AccentTable);
    t := RemoveSpaces(t);
    t := Lower(t);
    t := DeleteBracketed(t);
    r := StripPunctuation(t);
  }

  /** The replacement loop: each entry rebinds the string, first entry first. */
  method ApplyTable(s: string, table: seq<(string, string)>) returns (t: string)
    requires NonEmptyKeys(table)
    ensures t == ReplaceAll(s, table)
  {
    t := s;
    for i := 0 to |table|
      invariant t == ReplaceAll(s, table[..i])
    {
      assert table[..i + 1][..i] == table[..i];
      t := Replace(t, table[i].0, table[i].1);
    }
    assert table[..|table|] == table;
  }

  /** A normalised word contains no whitespace and none of the dropped punctuation. */
  lemma NormalizeIsClean(s: string)
    ensures forall i :: 0 <= i < |Normalize(s)| ==> !IsSpace(Normalize(s)[i])
    ensures forall i :: 0 <= i < |Normalize(s)| ==> Normalize(s)[i] !in Punctuation
  {
    var a := Lower(RemoveSpaces(ReplaceAll(s, AccentTable)));
    var b := DeleteBracketed(a);
    forall i | 0 <= i < |b| ensures !IsSpace(b[i]) {
      var j :| 0 <= j < |a| && a[j] == b[i];
    }
    forall i | 0 <= i < |Normalize(s)| ensures !IsSpace(Normalize(s)[i]) {
      var j :| 0 <= j < |b| && b[j] == Normalize(s)[i];
    }
  }

  lemma {:induction false} ContainsOneChar(c: char, k: string)
    requires |k| > 0
    ensures Contains([c], k) <==> k == [c]
  {
    assert Contains([c], k) == (StartsWith([c], k) || Contains([], k));
  }

  /** A one-character string that is no key of the table passes through it unchanged. */
  lemma UntouchedByTable(c: char, table: seq<(string, string)>)
    requires NonEmptyKeys(table)
    requires forall i :: 0 <= i < |table| ==> table[i].0 != [c]
    ensures ReplaceAll([c], table) == [c]
  {
    forall i | 0 <= i < |table| ensures !Contains([c], table[i].0) {
      ContainsOneChar(c, table[i].0);
    }
    ReplaceAllAbsent([c], table);
  }

  /** The last three steps leave a lone lower-case letter as it is. */
  lemma PlainLetterSurvives(c: char)
    requires 'a' <= c <= 'z' || ('\U{DF}' <= c <= '\U{F6}')
    ensures StripPunctuation(DeleteBracketed(Lower(RemoveSpaces([c])))) == [c]
  {
    NoSpaceKept(c);
    LowerKeeps(c);
    NoBracketKept(c);
    assert StripPunctuation([c]) == [c] + StripPunctuation([]);
  }

  lemma NoSpaceKept(c: char)
    requires !IsSpace(c)
    ensures RemoveSpaces([c]) == [c]
  {
    assert RemoveSpaces([c]) == [c] + RemoveSpaces([]);
  }

  lemma LowerKeeps(c: char)
    requires 'a' <= c <= 'z' || ('\U{DF}' <= c <= '\U{F6}')
    ensures Lower([c]) == [c]
  {
    assert LowerChar(c) == [c];
    assert Lower([c]) == LowerChar(c) + Lower([]);
  }

  lemma NoBracketKept(c: char)
    requires c != '['
    ensures DeleteBracketed([c]) == [c]
  {
    assert BracketRun([c]) == 0;
    assert DeleteBracketed([c]) == [c] + DeleteBracketed([]);
  }

  /** An example of a character the table does not cover: capital A-acute is kept. */
  lemma CapitalAcuteKept()
    ensures ReplaceAll("\U{C1}", AccentTable) == "\U{C1}"
  {
    UntouchedByTable('\U{C1}', AccentTable);
  }

  /** A lone character that is the key of exactly one entry, whose replacement no later key matches, comes out replaced. */
  lemma FoldedByOneEntry(c: char, d: char, table: seq<(string, string)>, k: nat)
    requires NonEmptyKeys(table) && k < |table| && table[k] == ([c], [d])
    requires forall i :: 0 <= i < k ==> table[i].0 != [c]
    requires forall i :: k < i < |table| ==> table[i].0 != [d]
    ensures ReplaceAll([c], table) == [d]
  {
    var pre, post := table[..k + 1], table[k + 1..];
    FoldedAt(c, d, table, k);
    forall i | 0 <= i < |post| ensures post[i].0 != [d] {
      assert post[i] == table[k + 1 + i];
    }
    UntouchedByTable(d, post);
    ReplaceAllConcat([c], pre, post);
    assert pre + post == table;
  }

  lemma FoldedAt(c: char, d: char, table: seq<(string, string)>, k: nat)
    requires NonEmptyKeys(table) && k < |table| && table[k] == ([c], [d])
    requires forall i :: 0 <= i < k ==> table[i].0 != [c]
    ensures NonEmptyKeys(table[..k + 1])
    ensures ReplaceAll([c], table[..k + 1]) == [d]
  {
    var pre := table[..k + 1];
    assert pre[..k] == table[..k];
    UntouchedByTable(c, table[..k]);
    assert Replace([c], [c], [d]) == [d] + Replace([], [c], [d]);
  }

  /** An example of the table at work: a precomposed small a-acute folds to `a`. */
  lemma SmallAcuteFolded()
    ensures ReplaceAll("\U{E1}", AccentTable) == "a"
  {
    FoldedByOneEntry('\U{E1}', 'a', AccentTable, 2);
  }

  /** The long s folds to `s`. */
  lemma LongSFolded()
    ensures ReplaceAll("\U{17F}", AccentTable) == "s"
  {
    FoldedByOneEntry('\U{17F}', 's', AccentTable, 23);
  }

  /** A key with a character the string lacks does not occur in it. */
  lemma {:induction false} MissingCharNotContained(s: string, k: string, c: char)
    requires c in k && c !in s
    ensures !Contains(s, k)
    decreases |s|
  {
    if |s| > 0 {
      MissingCharNotContained(s[1..], k, c);
    }
  }

  /** The one multi-character fold that lengthens the word: `q~` becomes `que`. */
  lemma QuTildeFolded()
    ensures ReplaceAll("q~", AccentTable) == "que"
  {
    var pre, mid, post := AccentTable[..22], AccentTable[22..23], AccentTable[23..];
    assert AccentTable == pre + mid + post;
    QuTildeBeforeItsEntry();
    assert mid == [("q~", "que")] && mid[..0] == [];
    ReplaceWhole("q~", "que");
    assert ReplaceAll("q~", mid) == "que";
    QueAfterItsEntry();
    ReplaceAllConcat("q~", pre, mid);
    ReplaceAllConcat("q~", pre + mid, post);
  }

  lemma QuTildeBeforeItsEntry()
    ensures NonEmptyKeys(AccentTable[..22]) && ReplaceAll("q~", AccentTable[..22]) == "q~"
  {
    var pre := AccentTable[..22];
    forall i | 0 <= i < |pre| ensures !Contains("q~", pre[i].0) {
      var c := if |pre[i].0| == 1 then pre[i].0[0] else '\U{303}';
      MissingCharNotContained("q~", pre[i].0, c);
    }
    ReplaceAllAbsent("q~", pre);
  }

  lemma QueAfterItsEntry()
    ensures NonEmptyKeys(AccentTable[23..]) && ReplaceAll("que", AccentTable[23..]) == "que"
  {
    var post := AccentTable[23..];
    forall i | 0 <= i < |post| ensures !Contains("que", post[i].0) {
      MissingCharNotContained("que", post[i].0, post[i].0[0]);
    }
    ReplaceAllAbsent("que", post);
  }


  /**
   * Normalisation is not idempotent: accents are folded before lower-casing,
   * so a capital accented vowel only loses its accent on a second pass.
   */
  lemma NormalizeNotIdempotent()
    ensures Normalize("\U{C1}") == "\U{E1}"
    ensures Normalize(Normalize("\U{C1}")) == "a"
  {
    CapitalAcuteKept();
    assert RemoveSpaces("\U{C1}") == "\U{C1}" + RemoveSpaces([]);
    assert Lower("\U{C1}") == LowerChar('\U{C1}') + Lower([]) == "\U{E1}";
    PlainLetterSurvives('\U{E1}');
    SmallAcuteFolded();
    PlainLetterSurvives('a');
  }

  /**
   * `os.path.splitext`: the extension starts at the last `.` after the last
   * `/`, provided something other than dots precedes it in the final component.
   */
  function ExtensionStart(p: string): (d: Option<nat>)
    ensures d.Some? <==> exists k, j :: 0 <= k < j < |p| && p[k] != '.' && p[j] == '.' && '/' !in p[k..]
    ensures d.Some? ==> d.value < |p| && p[d.value] == '.' && '.' !in p[d.value + 1..] && '/' !in p[d.value..]
  {
    var sep := RFind(p, '/');
    var dot := RFind(p, '.');
    if dot > sep && exists k :: sep + 1 <= k < dot && p[k] != '.' then Some(dot as nat) else None
  }

  /** Python's `s.rfind(c)`: the last index of `c`, or -1. */
  function RFind(s: string, c: char): (i: int)
    ensures -1 <= i < |s|
    ensures i >= 0 ==> s[i] == c
    ensures forall k :: i < k < |s| ==> s[k] != c
    decreases |s|
  {
    if |s| == 0 then -1 else if s[|s| - 1] == c then |s| - 1 else RFind(s[..|s| - 1], c)
  }

  /** A file extension as `splitext` returns it: empty, or a dot followed by no dot and no slash. */
  predicate IsExtension(e: string) {
    e == "" || (e[0] == '.' && '.' !in e[1..] && '/' !in e)
  }

  /** `get_output_file`: the input's extension, if any, replaced by `.html`. */
  function GetOutputFile(inputFile: string): (r: string)
    ensures EndsWith(r, ".html")
    ensures StartsWith(inputFile, r[..|r| - 5]) && IsExtension(inputFile[|r| - 5..])
    ensures |r| - 5 < |inputFile| ==> inputFile[|r| - 5] == '.'
    ensures |r| - 5 < |inputFile| <==> ExtensionStart(inputFile).Some?
    ensures ExtensionStart(inputFile).Some? ==> |r| - 5 == ExtensionStart(inputFile).value
  {
    var root := match ExtensionStart(inputFile)
      case Some(d) => inputFile[..d]
      case None => inputFile;
    root + ".html"
  }

  /** `get_xslt_file`: the stylesheet chosen from the words the path contains. */
  function GetXsltFile(inputFile: string): (r: string)
    ensures r == "xslt/levanto_arte.xslt" <==> Contains(inputFile, "arte") && Contains(inputFile, "levanto")
    ensures r == "xslt/arte.xslt" <==> Contains(inputFile, "arte") && !Contains(inputFile, "levanto")
    ensures r == "xslt/base.xslt" <==> !Contains(inputFile, "arte")
  {
    if Contains(inputFile, "arte") && Contains(inputFile, "levanto") then "xslt/levanto_arte.xslt"
    else if Contains(inputFile, "arte") then "xslt/arte.xslt"
    else "xslt/base.xslt"
  }
}
