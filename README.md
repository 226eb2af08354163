# ticha-magic core, modelled in Dafny

ticha-magic turns TEI-encoded transcriptions of colonial Zapotec texts into
HTML for the Ticha website. This project models the parts of it that do
stateful stream processing, and the helpers they rely on:

- **The pagers** (`TEIPager`). A pager is a SAX content handler. It reads the
  TEI stream and removes the `<pb/>` (page break) and `<cb/>` (column break)
  markers. In their place it writes page and column `div`s into an lxml tree
  builder. At a page break it closes every element it is tracking, turns the
  page `div` and reopens the tracked elements, so the output stays
  well-nested. There are four revisions:
  - `Pager`: src/tei_tools.py and xml_to_html.py. They differ only in the
    column-break context check.
  - `XsltPager`: xslt_magic.py.
  - `EarlyPager`: xml_to_html/xslt_magic.py.
- **The FLEx inserter** (`FLExParser`, flexify.py). It wraps each `<mark>`
  word in a popover `span`. It looks the word up in the FLEx dictionary
  (`lookup`: exact section first, otherwise the longest section prefix). It
  then writes the gloss table after the word and counts words seen and
  missed.
- **The outline builders** (`OutlineBuilder`). Each is an ElementTree parser
  target that writes a nested `ul` table of contents, with one link per
  section `div`. There are three revisions: make_outline.py,
  xml_to_html/ticha_outline.py and src/tei_tools.py.
- **The FLEx export converter** (flexml_to_json.py). It groups the words of
  a FLEx XML export into the dictionary that the inserter reads.
- **The common helpers** (common.py): `tag_eq`, `get_output_file`,
  `get_xslt_file`, and the `strip_accents_and_spaces` key normaliser.

Two support modules stand in for code that is not in the repository:

- `Sax` models lxml's `ElementTreeContentHandler` as a sink. The sink keeps
  a stack of open names and refuses a close whose name is not the innermost
  one. `Sax` also models the `AugmentedContentHandler` layers on top of it.
- `Outline.TreeBuilder` models ElementTree's `TreeBuilder`. Its `end` pops
  the innermost element whatever the tag, and fails on an empty stack.

A whole pass over a document is a sequence of SAX events. Each pager's
class methods are proved against a per-event step function (`StartStep`,
`EndStep`) and a whole-input function (`Run`). The lemmas about those
functions state what the pagers promise:

- A page break leaves the same elements open.
- The output never contains a marker. The builder refuses a close that is
  not of its innermost element, so whatever the pass writes is well-nested.
- A proper document (a `body`, or for the earliest revision a `text`, around
  well-nested content with page breaks) paginates: the pass completes, every
  element it opened is closed, and it writes one page `div` for the first
  page and one per page break.
- `page` counts the page breaks.
- The tag stack is the path of ordinary elements still open.

Python `str` operations (`split`, `join`, `str(int)`, `lower`, `isspace`)
live in `Text`. `Option` and dictionary lookup (`Get`) are in `Wrappers`.

## Model

| member | source | states |
|---|---|---|
| Common.TagEqMeansLocalName | common.py:6-16 | `tag_eq(d, l)` holds exactly when `d` is `l` or is `l` behind some `prefix:` |
| Common.TagEqNotCommutative | common.py:14-16 | every tag matches itself; `tei:pb` matches `pb` but `pb` does not match `tei:pb` |
| Common.ReplaceAllConcat | common.py:44-45 | applying two replacement tables one after the other is the same as applying their concatenation |
| Common.ReplaceAllAbsent | common.py:44-45 | a table none of whose keys occurs in the string leaves it unchanged |
| Common.ApplyTable | common.py:44-45 | the loop over the accent table computes the replacements in table order |
| Common.WordRun | common.py:50 | the length of the longest leading run of `\w` characters: all of it word characters, and the next one not |
| Common.BracketRun | common.py:50 | `\[\w+\]` matches at the start exactly when the input starts with `[`, a non-empty run of word characters and `]`, and the match is then that run plus the two brackets; otherwise there is no match |
| Common.DeleteBracketed | common.py:50 | removing bracketed words keeps only characters of the input |
| Common.DeleteBracketedKeepsPrefix | common.py:50 | text before the first `[` is kept as it is, in order, and the deletion goes on over the rest |
| Common.DeleteBracketedKeepsFirst | common.py:50 | a first character other than `[` is kept, and scanning goes on after it |
| Common.DeleteBracketedDropsMatch | common.py:50 | a `[`, a non-empty run of word characters and a `]` are deleted together, and scanning resumes after them |
| Common.NoBracketUnchanged | common.py:50 | a string without `[` comes through unchanged |
| Common.DeleteBracketedKeepsUnmatched | common.py:50 | a `[` that starts no bracketed word is kept, and scanning goes on after it |
| Common.StripPunctuation | common.py:52-53 | the result keeps only input characters, none of them in the punctuation set; a single character is dropped exactly when it is punctuation |
| Common.StripPunctuationConcat | common.py:52-53 | the filter works character by character: stripping a concatenation is stripping each part, so every other character is kept, in order |
| Common.StripAccentsAndSpaces | common.py:34-54 | the normaliser is the five steps in source order: accent table, whitespace removal, lower-casing, bracket removal, punctuation removal |
| Common.NormalizeIsClean | common.py:34-54 | a normalised key contains no whitespace and no punctuation |
| Common.PlainLetterSurvives | common.py:47-53 | a lower-case letter untouched by the table comes through the last four steps unchanged |
| Common.UntouchedByTable | common.py:39-45 | a character that is no key of the table comes through it unchanged |
| Common.FoldedByOneEntry | common.py:39-45 | a character keyed once in the table, whose image no later key matches, is folded to that image |
| Common.SmallAcuteFolded | common.py:40 | `á` folds to `a` |
| Common.CapitalAcuteKept | common.py:39-45 | `Á` is no key of the table and passes through it unchanged |
| Common.LongSFolded | common.py:42-45 | the long s `ſ` folds to `s` |
| Common.QuTildeFolded | common.py:42-45 | `q~` folds to `que`: no earlier entry touches it, and no later one touches `que` |
| Common.NormalizeNotIdempotent | common.py:39-48 | normalising is not idempotent: `Á` becomes `á` (lower-cased after the table), and a second pass gives `a` |
| Common.RFind | common.py:21 | the index of the last occurrence of a character, or -1 when there is none |
| Common.ExtensionStart | common.py:21 | `os.path.splitext` finds an extension exactly when the last path component has a `.` after some other character; it then starts at that component's last `.` |
| Common.GetOutputFile | common.py:19-21 | the output name ends in `.html`; its stem is a prefix of the input; something is dropped exactly when there is an extension, and then exactly the extension |
| Common.GetXsltFile | common.py:24-31 | each of the three stylesheets is chosen exactly when the input path contains `arte` and/or `levanto` as the branches say |
| Wrappers.Get | src/tei_tools.py:124-130 | `attributes.get(key)` (and `attrs.get` in xml_to_html/ticha_outline.py) finds a value exactly when the key is present, and the value is the one stored under that key |
| Sax.FeedConcat | src/tei_tools.py:187-193 | feeding the builder two event runs in turn is the same as feeding it their concatenation |
| Sax.TrackFollowsFeed | src/tei_tools.py:91-98 | over accepted events, the real tag stack is always as deep as the builder's stack of open elements |
| Sax.FeedFailsBefore | src/tei_tools.py:140-146 | once the builder refuses a close, no later events can make the run succeed |
| Sax.AugmentedHandler.StartElementNS | src/tei_tools.py:91-93 | the open goes to the builder, and its qualified name is pushed on the real tag stack |
| Sax.AugmentedHandler.EndElementNS | src/tei_tools.py:95-105 | the close succeeds exactly when the builder accepts it; on success it pops both stacks; on failure nothing changes and the error names the tag, the last opened tag and the stack, or just the original error when re-raising (xslt_magic.py:18-28) |
| Sax.AugmentedHandler.StartElement | src/tei_tools.py:79-86 | a plain-name open gives every attribute the empty namespace |
| Sax.AugmentedHandler.EndElement | src/tei_tools.py:88-89 | a plain-name close behaves as the namespaced close of `(None, name)` |
| Sax.Rejection | src/tei_tools.py:100-105 | the error records the tag, the stack, and the last opened tag exactly when the stack is non-empty |
| Replay.CloseAllOrder | src/tei_tools.py:187-189 | `closeAllTags` closes the tracked elements innermost first |
| Replay.OpenAllOrder | src/tei_tools.py:191-193 | `reopenAllTags` reopens them outermost first, with their attributes |
| Replay.FeedCloseAll | src/tei_tools.py:187-189 | closing all tracked elements is accepted exactly when they are the builder's innermost open elements, and it pops them |
| Replay.FeedOpenAll | src/tei_tools.py:191-193 | reopening pushes exactly the tracked names |
| Replay.ReplayRestores | src/tei_tools.py:187-193 | closing and then reopening the tracked elements leaves the builder's open elements as they were |
| Replay.FeedReplay | src/tei_tools.py:140-146 | close-all, then any middle run, then reopen-all, fails when the tracked elements are not innermost; otherwise it is the middle run on the stack below them with the tracked names put back |
| Replay.TrackCloseAll | src/tei_tools.py:187-189 | close-all pops the real tag stack by the number of tracked elements |
| Replay.TrackOpenAll | src/tei_tools.py:191-193 | reopen-all pushes their qualified names on the real tag stack |
| Pager.NextPageDivKeepsOpen | src/tei_tools.py:143-154 | turning the page `div` is accepted exactly when a `div` is innermost, and leaves the same names open |
| Pager.PageBreakKeepsOpen | src/tei_tools.py:140-146 | a page break is accepted exactly when the tracked elements sit directly inside a `div`, and afterwards the builder has the same elements open |
| Pager.ColumnBreakDepth | src/tei_tools.py:156-170 | `n="1"` opens two `div`s; `n=""` closes two, and is accepted only if both innermost are `div`s; any other `n` turns the innermost `div` |
| Pager.ColumnsOpen | src/tei_tools.py:163-165 | the start of a column section pushes two `div`s |
| Pager.ColumnsClose | src/tei_tools.py:166-168 | the end of a column section pops two `div`s, and is accepted exactly when both are innermost |
| Pager.ColumnNext | src/tei_tools.py:169-170 | the next column closes and reopens the innermost `div` |
| Pager.BodyBalanced | src/tei_tools.py:131-133 | the two `div`s opened at `<body>` are exactly those closed at `</body>` |
| Pager.RunCountsPages | src/tei_tools.py:124-127 | over a pass that completes, `page` has grown by the number of non-`pdf` page breaks, and `line` is reset at each of them and advanced at each `br` |
| Pager.RunTracksOrdinary | src/tei_tools.py:134-138 | over a pass that completes, the tag stack holds exactly the ordinary elements still open in the input, in order |
| Pager.RunConcat | src/tei_tools.py:196-207 | a pass over two event runs is the pass over the first, continued over the second |
| Pager.BodyStep | src/tei_tools.py:123-185 | inside the page body, each event of well-nested content is accepted, keeps the tracked elements the builder's innermost, follows the content's nesting, and opens a page `div` exactly when it turns the page |
| Pager.PageBreakCounts | src/tei_tools.py:140-154 | a page break opens exactly one page `div` |
| Pager.BodyRuns | src/tei_tools.py:123-193 | over well-nested page-body content the pass completes, its tag stack follows the content's nesting, and the page `div`s it writes are the pages it turns |
| Pager.BodyOpens | src/tei_tools.py:131-133 | `<body>` writes the wrapper `div` and the first page `div` |
| Pager.BodyCloses | src/tei_tools.py:175-177 | `</body>` closes both wrapper `div`s, leaving nothing open |
| Pager.PaginatesDocument | src/tei_tools.py:123-207 | a `body` around well-nested content with page breaks paginates: the pass completes with nothing open and nothing tracked, `page` is the number of page breaks, and the output opens one page `div` per page break plus one |
| Pager.ColumnPageBreakMisplaced | src/tei_tools.py:140-170 | with plain `div`s, `<body><div><cb n="1"/><pb/><cb n=""/></div></body>` is accepted and ends with nothing open, but the second page's `div` is opened inside the first page's `div` and the document's `div`, three deep, where the first page's was opened inside the wrapper alone |
| Pager.ColumnOutput | src/tei_tools.py:140-170 | in that run's output, the first page `div` is the second event and opens one deep, and the second page `div` is the eighth and opens three deep |
| Pager.Paginate | src/tei_tools.py:196-207 | the output never contains a `pb` or `cb` element and is always well-nested; the pass fails exactly when `Run` does, and when it succeeds its output is `Run`'s |
| Pager.TEIPager.HandleEvent | src/tei_tools.py:123-185 | one SAX callback goes on exactly as `Run` does, and fails only where `Run` fails |
| Pager.TEIPager.constructor | src/tei_tools.py:114-121 | a new pager starts on page 0, line 1, with nothing tracked and nothing written |
| Pager.TEIPager.StartElementNS | src/tei_tools.py:123-138 | an open performs `StartStep`: a refused column break changes nothing; otherwise it fails exactly when the builder refuses the step's events, and on success the state is the step's |
| Pager.TEIPager.StartBody | src/tei_tools.py:131-133 | `<body>` opens a wrapper `div` and the first page `div` |
| Pager.TEIPager.StartOrdinary | src/tei_tools.py:134-138 | an ordinary open is tracked and forwarded, and `br` advances the line |
| Pager.TEIPager.HandlePageBreak | src/tei_tools.py:140-146 | the page is advanced and the line reset to 1; the break's events are accepted exactly when the builder accepts them, and then they are written |
| Pager.TEIPager.CloseAndTurn | src/tei_tools.py:143-145 | closing the tracked elements and turning the page div are written exactly when the builder accepts them |
| Pager.TEIPager.TurnPage | src/tei_tools.py:144-145 | closing the page `div` and opening the next one are written exactly when a `div` is innermost |
| Pager.TEIPager.StartNewPageDiv | src/tei_tools.py:148-154 | the page `div` carries the text name, the page number and the recto/verso number |
| Pager.TEIPager.HandleColumnBreak | src/tei_tools.py:156-170 | with the context check on, a break outside a `div` is refused before anything is written; otherwise the column events are written exactly when the builder accepts them |
| Pager.TEIPager.EndElementNS | src/tei_tools.py:172-185 | a close performs `EndStep`: markers are dropped, `</body>` closes both wrapper `div`s, an ordinary close pops the tag stack; a builder refusal is reported with the page and line |
| Pager.TEIPager.Characters | src/tei_tools.py:64-105 | text is forwarded unchanged |
| Pager.TEIPager.CloseAllTags | src/tei_tools.py:187-189 | succeeds exactly when the tracked elements are innermost, and then closes them innermost first |
| Pager.TEIPager.ReopenAllTags | src/tei_tools.py:191-193 | reopens the tracked elements outermost first |
| XsltPager.NextPageDivKeepsOpen | xslt_magic.py:60-62 | turning the page `div` is accepted exactly when a `div` is innermost, and leaves the same names open |
| XsltPager.PageBreakKeepsOpen | xslt_magic.py:56-63 | a page break is accepted exactly when the tracked elements sit directly inside a `div`, and changes no open element |
| XsltPager.ColumnSurvivesPageBreak | xslt_magic.py:65-76 | column `div`s are tracked, so a page break inside a column section closes them first and reopens them last |
| XsltPager.RunCountsPages | xslt_magic.py:38-63 | over a pass that completes, `page` counts the non-`pdf` page breaks, and `line` follows the page breaks and `br`s |
| XsltPager.StepCounts | xslt_magic.py:38-54 | one step changes the page and line counters as the counting functions do for the first event |
| XsltPager.DivIsOrdinary | xslt_magic.py:65-76 | `div` is none of the special tags, so the pager's own column `div`s are tracked |
| XsltPager.BodyStep | xslt_magic.py:38-89 | inside the page body, each event of well-nested content is accepted, follows the content's nesting, and opens a page `div` exactly when it turns the page |
| XsltPager.PageBreakCounts | xslt_magic.py:56-63 | a page break opens exactly one `page` `div` |
| XsltPager.BodyRuns | xslt_magic.py:38-97 | over well-nested page-body content the pass completes and the page `div`s it writes are the pages it turns |
| XsltPager.PaginatesDocument | xslt_magic.py:38-120 | a `body` around well-nested content with page breaks paginates: the pass completes with nothing open and nothing tracked, `page` is the number of page breaks, and the output opens one `page` `div` per page break plus one |
| XsltPager.Paginate | xslt_magic.py:115-120 | the output never contains a marker and is always well-nested; the pass fails exactly when `Run` does, and its output is `Run`'s |
| XsltPager.TEIPager.HandleEvent | xslt_magic.py:38-89 | one SAX callback goes on exactly as `Run` does, and fails only where `Run` fails |
| XsltPager.TEIPager.constructor | xslt_magic.py:32-36 | a new pager starts on page 0, line 1, with nothing tracked |
| XsltPager.TEIPager.StartElementNS | xslt_magic.py:38-54 | an open performs this revision's `StartStep`; the pass fails exactly when the builder refuses the step's events, and on success the state is the step's |
| XsltPager.TEIPager.StartBody | xslt_magic.py:46-49 | `<body>` opens a wrapper `div` and a page `div` numbered with the current page |
| XsltPager.TEIPager.StartOrdinary | xslt_magic.py:50-54 | an ordinary open is tracked and forwarded, and `br` advances the line |
| XsltPager.TEIPager.HandlePageBreak | xslt_magic.py:56-63 | the page is advanced and the line reset; the break's events are written exactly when the builder accepts them |
| XsltPager.TEIPager.CloseAndTurn | xslt_magic.py:59-62 | closing the tracked elements and turning the page are written exactly when the builder accepts them |
| XsltPager.TEIPager.TurnPage | xslt_magic.py:60-62 | the page `div` is turned exactly when a `div` is innermost |
| XsltPager.TEIPager.HandleColumnBreak | xslt_magic.py:65-76 | the column `div`s go through the pager's own open and close, so they are pushed and popped on the tag stack |
| XsltPager.TEIPager.EndElementNS | xslt_magic.py:78-89 | a close performs `EndStep`; a builder refusal is the builder's own error, re-raised |
| XsltPager.TEIPager.Characters | xslt_magic.py:7-28 | text is forwarded unchanged |
| XsltPager.TEIPager.CloseAllTags | xslt_magic.py:91-93 | succeeds exactly when the tracked elements are innermost, and then closes them innermost first |
| XsltPager.TEIPager.ReopenAllTags | xslt_magic.py:95-97 | reopens the tracked elements outermost first |
| EarlyPager.PageBreakKeepsOpen | xml_to_html/xslt_magic.py:19-21 | closing and reopening the tracked elements is accepted exactly when they are innermost, and it restores the open elements |
| EarlyPager.PageBreakAccepted | xml_to_html/xslt_magic.py:19-21 | while the tag stack tracks the builder, every page break is accepted and changes nothing |
| EarlyPager.CorrectedStepKeepsTracking | xml_to_html/xslt_magic.py:12-35 | with the stack cleared at `</text>`, every accepted step keeps the tag stack tracking the builder |
| EarlyPager.OpenTextKeepsTracking | xml_to_html/xslt_magic.py:13-18 | opening `<text>` outside a text is accepted and starts tracking its page `div` |
| EarlyPager.OpenKeepsTracking | xml_to_html/xslt_magic.py:22-25 | any other open is accepted and keeps tracking |
| EarlyPager.CloseKeepsTracking | xml_to_html/xslt_magic.py:32-35 | an accepted ordinary close keeps tracking, in the corrected pager |
| EarlyPager.StaleEntryBreaksPageBreak | xml_to_html/xslt_magic.py:27-31 | on `<TEI><text/><text><pb/></text></TEI>` the pass as written fails and the corrected one succeeds with nothing left open; after the first text, the pager as written no longer tracks the builder |
| EarlyPager.TwoTextsRun | xml_to_html/xslt_magic.py:27-31 | on that input, the pass succeeds exactly with the stack cleared at `</text>`, and then closes everything; as written, the page `div` entry stays on the stack |
| EarlyPager.PageBreakInSecondText | xml_to_html/xslt_magic.py:19-21 | the page break in the second text succeeds exactly in the corrected pager |
| EarlyPager.TEIPager.constructor | xml_to_html/xslt_magic.py:7-10 | a new pager is outside any text, with nothing tracked |
| EarlyPager.TEIPager.StartElementNS | xml_to_html/xslt_magic.py:12-25 | an open performs `StartStep` (`<text>` adds a tracked page `div`, `<pb>` closes and reopens); it fails exactly when the builder refuses those events |
| EarlyPager.TEIPager.EndElementNS | xml_to_html/xslt_magic.py:27-35 | a close performs `EndStep`: `</text>` closes the page `div` and the text and leaves the text; `</pb>` is dropped; inside a text an ordinary close pops |
| EarlyPager.TEIPager.Characters | xml_to_html/xslt_magic.py:6 | text is forwarded unchanged |
| EarlyPager.TEIPager.CloseAllTags | xml_to_html/xslt_magic.py:37-39 | succeeds exactly when the tracked elements are innermost, and then closes them innermost first |
| EarlyPager.TEIPager.ReopenAllTags | xml_to_html/xslt_magic.py:41-43 | reopens the tracked elements outermost first |
| EarlyPager.TextStep | xml_to_html/xslt_magic.py:12-35 | inside `text`, each event of well-nested content is accepted, follows the content's nesting, and opens a page `div` exactly at a page break |
| EarlyPager.TextRuns | xml_to_html/xslt_magic.py:12-43 | over well-nested content of a `text` the pass completes and writes one page `div` per page break |
| EarlyPager.TextOpens | xml_to_html/xslt_magic.py:13-18 | `<text>` writes the text and its first page `div`, and tracks that `div` |
| EarlyPager.TextCloses | xml_to_html/xslt_magic.py:28-31 | `</text>` closes the page `div` and the text; the `div`'s entry stays tracked unless the stack is cleared |
| EarlyPager.PaginatesText | xml_to_html/xslt_magic.py:12-43 | a `text` around well-nested content with page breaks paginates, whichever way `</text>` treats the stack: the pass completes with nothing open, and the output opens one page `div` per page break plus one |
| EarlyPager.Paginate | xml_to_html/xslt_magic.py:49-52 | the output never contains `pb` and is always well-nested; the pass fails exactly when `Run` does |
| EarlyPager.TEIPager.HandleEvent | xml_to_html/xslt_magic.py:12-35 | one SAX callback goes on exactly as `Run` does, and fails only where `Run` fails |
| Flexify.FirstExact | flexify.py:134-137 | the first record whose section equals the word's, if any |
| Flexify.Longest | flexify.py:138-144 | the record whose non-empty section is the longest prefix of the current section, the earliest on a tie; none when no record's section is such a prefix |
| Flexify.LongestUnique | flexify.py:141-144 | there is only one such record |
| Flexify.Lookup | flexify.py:125-145 | `lookup` is the exact-or-longest-prefix choice over the records of the normalised word |
| Flexify.Scan | flexify.py:134-145 | the loop with its early return computes that choice |
| Flexify.EmptySectionNeverPartial | flexify.py:142 | a record with an empty section is never chosen as a partial match |
| Flexify.UnknownWord | flexify.py:134 | a word whose normalised form is no key gets the empty annotation |
| Flexify.ElementBalanced | flexify.py:59-63 | `E(tag)` around a balanced body is balanced |
| Flexify.CellsBalanced | flexify.py:114-116 | the table cells are balanced |
| Flexify.CellsLayout | flexify.py:114-116 | there is one `td` cell per entry, in order |
| Flexify.GlossTableBalanced | flexify.py:94-110 | the gloss table is balanced, whatever the word |
| Flexify.AnnotationBalanced | flexify.py:88-89 | the hidden content `span` is balanced |
| Flexify.DivIdSection | flexify.py:72-75 | `2.01` becomes section `2.1` |
| Flexify.NestingConcat | flexify.py:78-92 | input nesting composes over concatenated event runs |
| Flexify.ClosingExpanded | flexify.py:66-69 | closing the innermost input element is accepted by the builder, and a `mark` leaves its popover `span` innermost |
| Flexify.MarkClosesPrefix | flexify.py:85 | a prefix of the input has no more `mark` closes than the whole |
| Flexify.FLExParser.constructor | flexify.py:36-43 | a new parser is outside any mark, with zero counts and an empty word and section |
| Flexify.FLExParser.StartElement | flexify.py:45-51 | a plain-name open with attributes in the empty namespace |
| Flexify.FLExParser.EndElement | flexify.py:53-57 | a plain-name close, refused unless it is innermost |
| Flexify.FLExParser.StartElementNS | flexify.py:65-76 | `mark` is preceded by its popover `span` and starts a word; a `div` with an id sets the section |
| Flexify.FLExParser.Characters | flexify.py:118-122 | inside a mark the text is appended to the word; the text is always forwarded |
| Flexify.FLExParser.EndElementNS | flexify.py:78-92 | the close is forwarded first; at `</mark>` a non-empty word is counted, looked up, counted as missed when not found, and annotated; then the `span` is closed and the word reset |
| Flexify.FLExParser.EndMark | flexify.py:79-92 | `</mark>` writes the close, the annotation and the `span` close, and keeps the counts as the source does |
| Flexify.FLExParser.FinishMark | flexify.py:80-92 | after the mark, the word is counted and annotated if non-empty, and the popover `span` is closed |
| Flexify.FLExParser.Annotate | flexify.py:81-89 | the lookup, the count of a word, the count of a missed word and the annotation it writes |
| Flexify.FLExParser.CreateTableRow | flexify.py:112-116 | a `tr` with one `td` per entry |
| Flexify.FLExParser.CreateFLExWord | flexify.py:94-110 | nothing for the empty annotation; otherwise a table of caption, morph and gloss rows when both are non-empty, and the English gloss |
| Flexify.Deliver | flexify.py:18-19 | one event handed to the parser adds at most one word, and an event that keeps the input well nested is accepted, keeping the builder's stack the expansion of the input's |
| Flexify.FLExParser.EndOther | flexify.py:79 | a close other than `</mark>` is the builder's close alone: accepted exactly when it is innermost, and then it pops; refused, it changes nothing |
| Flexify.FLExParser.EmitAnnotation | flexify.py:88-89 | the hidden content `span` around the gloss table is written, leaving the open elements as they were |
| Flexify.FLExParser.TextElement | flexify.py:59-63 | `E(tag)` around one text writes the open, the text and the close, leaving the open elements as they were |
| Flexify.Flexify | flexify.py:13-21 | over any input, `missed <= total` and the total is at most the number of `mark` closes; the output is well-nested; properly nested input never aborts |
| FlexExport.ItemsOfTypeMeaning | flexml_to_json.py:64 | `item[@type=t]` selects exactly the items of that type |
| FlexExport.FirstOfType | flexml_to_json.py:64 | `find` gives nothing exactly when no item has the type, and otherwise the first item that has it |
| FlexExport.TextName | flexml_to_json.py:62-65 | a text name has no spaces |
| FlexExport.TextNameMeaning | flexml_to_json.py:62-65 | without a `title-abbreviation` item the text name is an error; otherwise it is the first such item's text, lower-cased and without spaces, or an error when that item has no text |
| FlexExport.WordName | flexml_to_json.py:68-70 | joining the word items succeeds exactly when every item has text |
| FlexExport.TextsMeaning | flexml_to_json.py:70 | joining word items fails exactly when one has no text; otherwise it gives their texts in order |
| FlexExport.FindItem | flexml_to_json.py:90-100 | a non-empty result is the text of some item of the type |
| FlexExport.FindItemMeaning | flexml_to_json.py:90-100 | `find_item` gives the empty string when no such item exists; otherwise the first such item's text, or the empty string when that item has none |
| FlexExport.TextsOrMeaning | flexml_to_json.py:110 | an item without text becomes the empty string, and the others keep their text |
| FlexExport.FindAllItems | flexml_to_json.py:103-111 | there is one text per `morph/item` of the type |
| FlexExport.FindAllItemsMeaning | flexml_to_json.py:103-111 | `find_all_items` has one entry per `morph/item` of the type, in order |
| FlexExport.SplitJoin | flexml_to_json.py:70 | splitting a space-joined name gives back its parts when none contains a space |
| FlexExport.WordNameSplits | flexml_to_json.py:68-70 | a word name splits back into its word items |
| FlexExport.MakeFlexObject | flexml_to_json.py:73-83 | the word object exists exactly when its name does; it carries that name, and as many morphs and lexical glosses as there are `morph/item`s of each type |
| FlexExport.WordEntryMeaning | flexml_to_json.py:55-58 | a word's entry is keyed by its normalised name, in the text's section, and has one morph and one gloss per morph item |
| FlexExport.GroupedIsFilter | flexml_to_json.py:48-59 | the dictionary has a key exactly when some entry has it, and holds that key's records in input order |
| FlexExport.EntriesKeyed | flexml_to_json.py:52-58 | every exported entry is keyed by its normalised name and its section has no spaces |
| FlexExport.ExportedWordsAreFound | flexml_to_json.py:43-59 | every exported word can be found in the dictionary under its normalised name |
| FlexExport.WordErrorSticks | flexml_to_json.py:54-58 | an error on one word aborts the whole conversion |
| FlexExport.TextErrorSticks | flexml_to_json.py:52-58 | an error in one text aborts the whole conversion |
| FlexExport.AddWord | flexml_to_json.py:55-58 | appending one word's record keeps the dictionary equal to the grouping of all entries so far |
| FlexExport.AddWords | flexml_to_json.py:54-58 | the inner loop appends a text's entries, or reports the first word's error |
| FlexExport.AddText | flexml_to_json.py:52-58 | one text's pass appends its entries, or reports its error |
| FlexExport.ConvertFlexData | flexml_to_json.py:43-59 | the conversion loop computes the grouping of all texts' entries |
| FlexExport.GroupedIsFilterAll | flexml_to_json.py:48-59 | the grouping holds, under each key, the records of exactly the entries with that key, in order |
| FlexExport.Convert | flexml_to_json.py:43-59 | the conversion succeeds exactly when every text and word does; a key is present exactly when some entry has it, and holds that key's records in input order |
| FlexExport.MakeTableRow | flexml_to_json.py:86-87 | a row starts with `<tr>` and ends with `</tr>` |
| FlexExport.TableRowCell | flexml_to_json.py:86-87 | entry `i` sits in the row as `<td>` + entry + `</td>`, right after the cells of the entries before it |
| FlexExport.TableRowLength | flexml_to_json.py:86-87 | the row is nine characters per entry plus the entries plus nine |
| FlexExport.TdsConcat | flexml_to_json.py:87 | the cells of two entry lists concatenate |
| Outline.NoColonRule | src/tei_tools.py:230-237 | unlike `tag_eq`, the outline comparisons never match a `prefix:` qualified name |
| Outline.RevisionsDisagree | make_outline.py:21-24 | the revisions disagree on which namespaced tags match: only make_outline.py accepts the XML namespace, and only src/tei_tools.py accepts `{}` |
| Outline.GetXmlAttr | make_outline.py:26-33 | a value is found exactly when the key is present plain or in a known namespace, it is the value of one such key, and the plain key comes first |
| Outline.GetXmlAttrOrder | make_outline.py:26-33 | the plain key wins; without it the TEI key wins; only without both is the XML key read |
| Outline.FindAttr | src/tei_tools.py:240-251 | the value of the first key, in dictionary order, that matches the name in any known namespace |
| Outline.AttrLookupsDisagree | src/tei_tools.py:240-251 | `find_attr` follows dictionary order while `get_xml_attr` follows namespace order, so they can read different values |
| Outline.SectionId | src/tei_tools.py:274-281 | the first attribute ending in `id` whose value starts with the text name, if any |
| Outline.DivId | make_outline.py:54-56 | a section id always starts with the text name |
| Outline.Classify | make_outline.py:50-61 | a section start always has a number of at least one part |
| Outline.PdfPageIgnored | make_outline.py:51 | a `pdf` page break does not advance the page |
| Outline.ForeignDivIgnored | xml_to_html/ticha_outline.py:36-43 | a `div` with no attribute starting with the text name starts no section |
| Outline.IntToString | make_outline.py:59 | `str(page)` is never empty, and for a non-negative page it is the natural-number numeral |
| Outline.IntToStringMeaning | make_outline.py:59 | read back as a decimal numeral, `str(n)` is `n`: all digits for a non-negative `n`, and `-` then the digits of `-n` for a negative one |
| Outline.IntToStringInjective | make_outline.py:59 | different pages get different page labels |
| Text.NatToStringReadsBack | src/tei_tools.py:133 | the digits of `str(n)`, read back most significant first, give `n` |
| Text.NatToStringInjective | src/tei_tools.py:145 | different page numbers give different `data-n` values |
| Outline.EndsDepth | make_outline.py:83-85 | closing `n` lists leaves `n` fewer lists open |
| Outline.LevelsDepth | make_outline.py:86-92 | each intermediate level leaves one more list open |
| Outline.EntryBalanced | make_outline.py:94-99 | a section's `li > a` entry is balanced |
| Outline.SectionCallsDepth | make_outline.py:79-100 | after writing a section, the list depth is that section's depth |
| Outline.LevelsLayout | make_outline.py:88-92 | each intermediate level is `ul`, `li`, the number's remaining parts joined by `.`, and the closing `li` |
| Outline.OneLinkPerSection | make_outline.py:94-98 | writing a section adds exactly one link |
| Outline.EntryHasOneLink | make_outline.py:95 | a section's entry holds exactly one link |
| Outline.LevelsHaveNoLinks | make_outline.py:88-92 | the intermediate levels hold no link |
| Outline.LinksConcat | make_outline.py:79-100 | link counts add up over concatenated output |
| Outline.TreeBuilder.constructor | make_outline.py:40 | a new tree builder has nothing open and nothing written |
| Outline.TreeBuilder.Start | make_outline.py:47-48 | a start pushes the tag and is written |
| Outline.TreeBuilder.End | make_outline.py:75-76 | an end pops the innermost element whatever the tag, and fails on an empty stack |
| Outline.TreeBuilder.Data | make_outline.py:97 | data is written and changes no open element |
| Outline.SectionNumberReadsBack | make_outline.py:56 | joining the section number with `.` gives back the id after the text name |
| Outline.FindSectionId | src/tei_tools.py:274-281 | the loop with its `break` finds that first matching id |
| Outline.EndLists | make_outline.py:83-85 | the closing loop writes `n` `ul` ends |
| Outline.OpenLevels | make_outline.py:86-93 | the opening loop writes the intermediate levels and the `ul` with the previous number's id |
| Outline.AddEntry | make_outline.py:94-99 | writes the entry and leaves the open elements as they were |
| Outline.OutlineBuilder.constructor | make_outline.py:39-48 | the builder opens `div.index` and `ul`, starts at the given page and at number `1` |
| Outline.OutlineBuilder.WriteSection | make_outline.py:79-100 | writes the pending section, if any, and takes on its number |
| Outline.OutlineBuilder.Start | make_outline.py:50-61 | a page break advances the page; a section `div` writes the previous section and starts a new one at the current page; an outline `head` starts the title |
| Outline.OutlineBuilder.End | make_outline.py:63-65 | `</head>` ends the title |
| Outline.OutlineBuilder.Data | make_outline.py:67-71 | inside a title, the text is appended to the pending section's title |
| Outline.OutlineBuilder.Close | make_outline.py:73-77 | writes the last section and closes the `ul` and `div`; the output is what was written |
| Outline.XmlToOutline | make_outline.py:8-14 | the outline is accepted by a tree builder, and it holds exactly one link per section `div` in the input |
| Outline.Feed | make_outline.py:50-71 | each parser call adds one section, written or pending, for each section `div` and none otherwise |

## Left out

- lxml's tree builder is not part of the source. `Sax.Sink` models it as a stack of open names that refuses a close of anything but the innermost name. Element trees, attribute order on output and serialisation are not modelled.
- ElementTree's `TreeBuilder` is modelled by `Outline.TreeBuilder`. As in CPython's C builder, `end` does not check its tag, and `close` does not check that everything was closed. The outline's output is therefore a sequence of builder calls, not a tree.
- `sax.saxify`, which walks a tree and calls the handler, is replaced by a sequence of SAX events given to `Paginate` and `Flexify`. The XML parser feeding the outline builders is replaced by a sequence of `start`/`end`/`data` calls.
- Error messages are abstracted into the `Failure` datatype, which keeps the data a message is built from (tag, stack, page, line). The text of the messages, the `print`s and `logging` calls are left out. These include the warning at src/tei_tools.py:283 for a `div` id of another text.
- The state of a handler after it raises is not specified. A pass that raises is reported as a failure, and its partial output is not used.
- `preprocess_xml` and the XSLT stylesheets, file I/O, the command-line entry points, `generate_outline` and JSON loading are left out. So are `flexify`'s printing of counts and `convert_flex_to_json`'s file handling.
- The FLEx dictionary is a map from key to records. JSON shapes, and the KeyErrors a malformed dictionary would raise, are left out.
- Python's Unicode `str.lower`, `str.isspace`/`str.split()` and the regex `\w` are approximated:
  - ASCII;
  - Latin-1;
  - Latin Extended-A;
  - the caron vowels.

  Characters outside these ranges are treated as non-space and non-word, and are left unchanged by `Lower`.
- The FLEx export's ElementPath queries (`find`, `findall`) are modelled as recursive filters over an `Elem` tree. Only the paths the converter uses are modelled. An element with no text is `None`, never `""`.
- `get_text_name` raising on a missing title or missing text, and `find_word_name` raising on an item with no text, are both modelled as errors that abort the conversion.
- `make_outline.py`'s `page` is an integer: `first_page` is assumed to be an `int`, as every caller passes one.
- The `url` class attribute of make_outline.py and xml_to_html/ticha_outline.py, and `make_url` in src/tei_tools.py, are modelled as the string they format. No URL escaping is modelled.
- XsltPager.TEIPager.StartElementNS: for a column break that the pager refuses (closing a column with too few tracked elements), only `err.Some?` is stated. The exact error and the state after it are not.
- XsltPager.TEIPager.HandleColumnBreak: as above, a refused break states only that an error is returned.
- Flexify.Flexify: the counts are bounded (`missed <= total <= ` the number of `mark` closes). They are not equated with an independent count over the input, because a close that aborts the pass leaves the counts where the source leaves them.
- The FLEx dictionary is keyed by the normalised word, and a word keeps every record appended to it (flexml_to_json.py:52-58), as `FlexExport.GroupedIsFilter` states.
- `strip_accents_and_spaces` is not idempotent: a capital accented letter is lower-cased after the accent table has run. `Common.NormalizeNotIdempotent` states this.
- DeleteBracketed: its own contract says only that the kept characters come from the input. Which characters are kept, and in what order, is stated by `DeleteBracketedKeepsPrefix`, `DeleteBracketedKeepsFirst`, `DeleteBracketedKeepsUnmatched`, `DeleteBracketedDropsMatch` and `NoBracketUnchanged`.
- PaginatesDocument: documents with column breaks are not covered, in either `Pager` or `XsltPager`. src/tei_tools.py does not track its column `div`s. The builder compares names only, so with plain `div`s a page break inside a column section is accepted, but it closes the column `div`s in place of the tracked elements. The next page's `div` then opens inside the previous page's content, and the column end closes it, so the text after the column section lands back in the earlier page's `div` (`Pager.ColumnPageBreakMisplaced`). When the tracked `div` is in a namespace, the builder refuses the break. xslt_magic.py tracks its column `div`s, so whether the output balances depends on the `n` values of the breaks.
- PaginatesText: the `text` is taken as the first thing in the document. Outside `text` the pager tracks nothing, so wrapping it in other elements changes no step; that case is not stated as a lemma.
- `Sax.Sink` accepts more than one top-level element, while lxml's builder fails at an open after its root has closed. The witnesses of `EarlyPager` therefore have a single `TEI` root.

## Findings

| source | as written | input that shows it | evidently intended | confidence | as-written member | corrected member |
|---|---|---|---|---|---|---|
| xml_to_html/xslt_magic.py:27-31 | closing `</text>` closes the `printed_text_page` div in the builder but leaves its entry on `tag_stack` | `<TEI><text/><text><pb/></text></TEI>`: the page break closes the stale `div` entry, which the builder no longer has open, and the pass aborts | leaving a text leaves nothing tracked (`tag_stack` cleared at `</text>`), so every page break is accepted | not executed | EarlyPager.StaleEntryBreaksPageBreak | EarlyPager.CorrectedStepKeepsTracking |
