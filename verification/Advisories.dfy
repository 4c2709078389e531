/** The section parser for HPE advisory pages: a machine over the tag stream, and the document walk it computes. */
module Advisories {
  import opened Common
  import opened Events

  datatype Tag = HeadingTag | EntryTag | HeaderCell | Anchor | Other

  /** What the HTML tokenizer reports; text comes as its whitespace-separated words. */
  datatype Token = Start(tag: Tag, href: Option<string>) | End(tag: Tag) | Text(words: seq<string>)

  datatype Section = Open | Resolved

  datatype Entry = Entry(section: Section, words: seq<string>, href: Option<string>)

  // --- Headings -----------------------------------------------------------------------

  function Lower(s: string): string {
    seq(|s|, i requires 0 <= i < |s| => if 'A' <= s[i] <= 'Z' then s[i] - 'A' + 'a' else s[i])
  }

  /** The words contain "... <first> customer advisor...", in any case. */
  predicate Mentions(words: seq<string>, first: string) {
    |words| >= 3 && (
      || (EndsWith(Lower(words[0]), first) && Lower(words[1]) == "customer" && "advisor" <= Lower(words[2]))
      || Mentions(words[1..], first))
  }

  /** The section a heading opens, if any. */
  function Opens(words: seq<string>): (r: seq<Section>)
    ensures |r| <= 1
  {
    if Mentions(words, "open") then [Open] else if Mentions(words, "resolved") then [Resolved] else []
  }

  /** Words i to i + 2 read "... <first> customer advisor...", in any case. */
  predicate ReadsAt(words: seq<string>, first: string, i: nat) {
    && i + 2 < |words| && EndsWith(Lower(words[i]), first)
    && Lower(words[i + 1]) == "customer" && "advisor" <= Lower(words[i + 2])
  }

  ghost predicate Reads(words: seq<string>, first: string) {
    exists i: nat :: ReadsAt(words, first, i)
  }

  lemma {:induction false} MentionsIsReading(words: seq<string>, first: string)
    ensures Mentions(words, first) <==> Reads(words, first)
  {
    if |words| >= 3 {
      MentionsIsReading(words[1..], first);
      if i: nat :| ReadsAt(words[1..], first, i) {
        assert ReadsAt(words, first, i + 1);
      }
      if i: nat :| ReadsAt(words, first, i) {
        assert if i == 0 then ReadsAt(words, first, 0) else ReadsAt(words[1..], first, i - 1);
      }
      assert ReadsAt(words, first, 0) ==> Reads(words, first);
    }
  }

  /** A heading anywhere reading "open customer advisor..." opens that section; failing that, one for the resolved. */
  lemma OpensIff(words: seq<string>)
    ensures Opens(words) == [Open] <==> Reads(words, "open")
    ensures Opens(words) == [Resolved] <==> Reads(words, "resolved") && !Reads(words, "open")
    ensures Opens(words) == [] <==> !Reads(words, "resolved") && !Reads(words, "open")
  {
    MentionsIsReading(words, "open");
    MentionsIsReading(words, "resolved");
  }

  function Last(seen: seq<Section>): Option<Section> {
    if seen == [] then None else Some(seen[|seen| - 1])
  }

  /** Python's `href or keep looking`. */
  function FirstOf(href: Option<string>, next: Option<string>): Option<string> {
    if href.Some? then href else OrNone(next)
  }

  // --- The machine -----------------------------------------------------------------------

  /**
   * What the parser remembers that can still matter: the matching headings so far, the text of the heading it
   * is in, and, while inside an entry, what it has of that entry.
   */
  datatype State = State(
    seen: seq<Section>,
    heading: Option<seq<string>>,
    depth: nat,
    words: seq<string>,
    href: Option<string>,
    header: bool,
    entries: seq<Entry>)

  const INITIAL := State([], None, 0, [], None, false, [])

  function Step(s: State, token: Token): State {
    match token
    case Start(tag, href) =>
      if tag == HeadingTag then s.(heading := Some([]))
      else if tag == EntryTag && s.seen != [] then s.(depth := s.depth + 1)
      else if tag == HeaderCell && s.depth > 0 then s.(header := true)
      else if tag == Anchor && s.depth > 0 then s.(href := FirstOf(s.href, href))
      else s
    case End(tag) =>
      if tag == HeadingTag && s.heading.Some? then s.(seen := s.seen + Opens(s.heading.value), heading := None)
      else if tag == EntryTag && s.depth > 1 then s.(depth := s.depth - 1)
      else if tag == EntryTag && s.depth == 1 then
        s.(depth := 0, words := [], href := None, header := false,
           entries := s.entries + Finished(Last(s.seen), s.words, s.href, s.header))
      else s
    case Text(words) =>
      if s.heading.Some? then s.(heading := Some(s.heading.value + words))
      else if s.depth > 0 then s.(words := s.words + words)
      else s
  }

  /** The entry a closing tag yields: none for a header row, nor for one without text. */
  function Finished(section: Option<Section>, words: seq<string>, href: Option<string>, header: bool): seq<Entry> {
    if section.Some? && words != [] && !header then [Entry(section.value, words, href)] else []
  }

  function Run(s: State, tokens: seq<Token>): State {
    if tokens == [] then s else Step(Run(s, tokens[..|tokens| - 1]), tokens[|tokens| - 1])
  }

  /** On any stream, however unbalanced: inside an entry there is a section, and every entry has text. */
  lemma {:induction false} RunIsSane(tokens: seq<Token>)
    ensures var s := Run(INITIAL, tokens);
            && (s.depth > 0 ==> Last(s.seen).Some?)
            && (forall i :: 0 <= i < |s.entries| ==> s.entries[i].words != [] && s.entries[i].section in s.seen)
  {
    if tokens != [] {
      RunIsSane(tokens[..|tokens| - 1]);
    }
  }

  // --- The document ------------------------------------------------------------------------

  /** A well-nested document: a run of siblings. */
  datatype Document =
    | Empty
    | Words(words: seq<string>, rest: Document)
    | Element(tag: Tag, href: Option<string>, inner: Document, rest: Document)

  /** Text with no more than inline markup around it. */
  predicate Plain(d: Document) {
    match d
    case Empty => true
    case Words(_, rest) => Plain(rest)
    case Element(tag, _, inner, rest) => tag == Other && Plain(inner) && Plain(rest)
  }

  /** Headings hold only plain text. */
  predicate Proper(d: Document) {
    match d
    case Empty => true
    case Words(_, rest) => Proper(rest)
    case Element(tag, _, inner, rest) => (if tag == HeadingTag then Plain(inner) else Proper(inner)) && Proper(rest)
  }

  function Tokens(d: Document): seq<Token> {
    match d
    case Empty => []
    case Words(words, rest) => [Text(words)] + Tokens(rest)
    case Element(tag, href, inner, rest) => [Start(tag, href)] + Tokens(inner) + [End(tag)] + Tokens(rest)
  }

  /** All text outside headings, in document order. */
  function TextOf(d: Document): seq<string> {
    match d
    case Empty => []
    case Words(words, rest) => words + TextOf(rest)
    case Element(tag, _, inner, rest) => (if tag == HeadingTag then [] else TextOf(inner)) + TextOf(rest)
  }

  /** The sections the document's headings open, in document order. */
  function Sections(d: Document): seq<Section>
    decreases d, 1
  {
    match d
    case Empty => []
    case Words(_, rest) => Sections(rest)
    case Element(_, _, _, rest) => SectionsIn(d) + Sections(rest)
  }

  function SectionsIn(d: Document): seq<Section>
    requires d.Element?
    decreases d, 0
  {
    if d.tag == HeadingTag then Opens(TextOf(d.inner)) else Sections(d.inner)
  }

  /** The first non-empty link, in document order. */
  function LinkOf(d: Document): (r: Option<string>)
    ensures r != Some("")
  {
    match d
    case Empty => None
    case Words(_, rest) => LinkOf(rest)
    case Element(tag, href, inner, rest) =>
      FirstOf(FirstOf(if tag == Anchor then FirstOf(None, href) else None, LinkOf(inner)), LinkOf(rest))
  }

  predicate HasHeader(d: Document) {
    match d
    case Empty => false
    case Words(_, rest) => HasHeader(rest)
    case Element(tag, _, inner, rest) => tag == HeaderCell || HasHeader(inner) || HasHeader(rest)
  }

  /**
   * The entries of the document: each outermost list item or table row that opens once a section is open,
   * under the section open where it closes; header rows and empty ones are dropped.
   */
  function Walk(d: Document, section: Option<Section>): seq<Entry>
    decreases d, 1
  {
    match d
    case Empty => []
    case Words(_, rest) => Walk(rest, section)
    case Element(_, _, _, rest) => EntriesIn(d, section) + Walk(rest, Current(section, SectionsIn(d)))
  }

  function EntriesIn(d: Document, section: Option<Section>): seq<Entry>
    requires d.Element?
    decreases d, 0
  {
    if d.tag == HeadingTag then []
    else if d.tag == EntryTag && section.Some? then
      Finished(Current(section, Sections(d.inner)), TextOf(d.inner), LinkOf(d.inner), HasHeader(d.inner))
    else Walk(d.inner, section)
  }

  /** The section open after further headings. */
  function Current(section: Option<Section>, seen: seq<Section>): Option<Section> {
    if seen == [] then section else Last(seen)
  }

  // --- The machine computes the walk -----------------------------------------------------------

  lemma {:induction false} RunAppend(s: State, a: seq<Token>, b: seq<Token>)
    ensures Run(s, a + b) == Run(Run(s, a), b)
  {
    if b == [] {
      assert a + b == a;
    } else {
      assert (a + b)[..|a + b| - 1] == a + b[..|b| - 1];
      RunAppend(s, a, b[..|b| - 1]);
    }
  }

  /** An element is its start tag, its content, its end tag, and then what follows. */
  lemma RunElement(s: State, d: Document)
    requires d.Element?
    ensures var begun := Step(s, Start(d.tag, d.href));
            Run(s, Tokens(d)) == Run(Step(Run(begun, Tokens(d.inner)), End(d.tag)), Tokens(d.rest))
  {
    var start, end := [Start(d.tag, d.href)], [End(d.tag)];
    RunAppend(s, start + Tokens(d.inner) + end, Tokens(d.rest));
    RunAppend(s, start + Tokens(d.inner), end);
    RunAppend(s, start, Tokens(d.inner));
    RunOne(s, start[0]);
    RunOne(Run(Step(s, start[0]), Tokens(d.inner)), end[0]);
  }

  lemma RunOne(s: State, token: Token)
    ensures Run(s, [token]) == Step(s, token)
  {
    assert [token][..0] == [];
    assert Run(s, []) == s;
  }

  lemma RunText(s: State, d: Document)
    requires d.Words?
    ensures Run(s, Tokens(d)) == Run(Step(s, Text(d.words)), Tokens(d.rest))
  {
    RunAppend(s, [Text(d.words)], Tokens(d.rest));
    RunOne(s, Text(d.words));
  }

  /** What plain text does to the machine inside a heading. */
  function Heard(s: State, words: seq<string>): State
    requires s.heading.Some?
  {
    s.(heading := Some(s.heading.value + words))
  }

  lemma HeardTwice(s: State, a: seq<string>, b: seq<string>)
    requires s.heading.Some?
    ensures Heard(Heard(s, a), b) == Heard(s, a + b)
  {
    assert (s.heading.value + a) + b == s.heading.value + (a + b);
  }

  lemma {:induction false} InsideHeading(s: State, d: Document)
    requires Plain(d) && s.heading.Some?
    ensures Run(s, Tokens(d)) == Heard(s, TextOf(d))
    decreases d
  {
    match d
    case Empty =>
      assert s.heading.value + [] == s.heading.value;
    case Words(words, rest) =>
      RunText(s, d);
      InsideHeading(Heard(s, words), rest);
      HeardTwice(s, words, TextOf(rest));
    case Element(tag, href, inner, rest) =>
      RunElement(s, d);
      InsideHeading(s, inner);
      InsideHeading(Heard(s, TextOf(inner)), rest);
      HeardTwice(s, TextOf(inner), TextOf(rest));
  }

  /** What a stretch of document does to the machine inside an entry. */
  function Gathered(s: State, seen: seq<Section>, words: seq<string>, href: Option<string>, header: bool): State {
    s.(seen := s.seen + seen, words := s.words + words, href := FirstOf(s.href, href), header := s.header || header)
  }

  lemma GatheredTwice(
      s: State, seen1: seq<Section>, words1: seq<string>, href1: Option<string>, header1: bool,
      seen2: seq<Section>, words2: seq<string>, href2: Option<string>, header2: bool)
    ensures Gathered(Gathered(s, seen1, words1, href1, header1), seen2, words2, href2, header2)
            == Gathered(s, seen1 + seen2, words1 + words2, FirstOf(FirstOf(None, href1), href2), header1 || header2)
  {
    assert (s.seen + seen1) + seen2 == s.seen + (seen1 + seen2);
    assert (s.words + words1) + words2 == s.words + (words1 + words2);
  }

  lemma GatheredNothing(s: State)
    ensures s.seen + [] == s.seen && s.words + [] == s.words
    ensures Gathered(s, [], [], None, false) == s
  {
  }

  /** An element inside an entry, from its start tag to its end tag. */
  function Within(s: State, d: Document): State
    requires d.Element?
  {
    if d.tag == HeadingTag then Gathered(s, Opens(TextOf(d.inner)), [], None, false)
    else Gathered(s, Sections(d.inner), TextOf(d.inner),
                  FirstOf(if d.tag == Anchor then FirstOf(None, d.href) else None, LinkOf(d.inner)),
                  d.tag == HeaderCell || HasHeader(d.inner))
  }

  /** Inside an entry, further list items and rows are just part of its text. */
  lemma {:induction false} InsideEntry(s: State, d: Document)
    requires Proper(d) && s.heading.None? && s.depth > 0 && s.seen != []
    ensures Run(s, Tokens(d)) == Gathered(s, Sections(d), TextOf(d), LinkOf(d), HasHeader(d))
    decreases d, 1
  {
    match d
    case Empty =>
      GatheredNothing(s);
    case Words(words, rest) =>
      RunText(s, d);
      GatheredNothing(s);
      InsideEntry(Step(s, Text(words)), rest);
      GatheredTwice(s, [], words, None, false, Sections(rest), TextOf(rest), LinkOf(rest), HasHeader(rest));
    case Element(tag, href, inner, rest) =>
      RunElement(s, d);
      ElementInsideEntry(s, d);
      InsideEntry(Within(s, d), rest);
      WithinThenRest(s, d);
  }

  lemma {:induction false} ElementInsideEntry(s: State, d: Document)
    requires d.Element? && Proper(d) && s.heading.None? && s.depth > 0 && s.seen != []
    ensures Step(Run(Step(s, Start(d.tag, d.href)), Tokens(d.inner)), End(d.tag)) == Within(s, d)
    decreases d, 0
  {
    if d.tag == HeadingTag {
      HeadingBetweenTags(s, d);
      GatheredNothing(s);
    } else {
      var begun := Step(s, Start(d.tag, d.href));
      InsideEntry(begun, d.inner);
    }
  }

  lemma HeadingBetweenTags(s: State, d: Document)
    requires d.Element? && d.tag == HeadingTag && Plain(d.inner) && s.heading.None?
    ensures Step(Run(Step(s, Start(d.tag, d.href)), Tokens(d.inner)), End(d.tag))
            == s.(seen := s.seen + Opens(TextOf(d.inner)))
  {
    InsideHeading(s.(heading := Some([])), d.inner);
    assert [] + TextOf(d.inner) == TextOf(d.inner);
  }

  lemma {:induction false} PlainIsBare(d: Document)
    requires Plain(d)
    ensures LinkOf(d).None? && !HasHeader(d)
  {
    match d
    case Empty =>
    case Words(_, rest) => PlainIsBare(rest);
    case Element(_, _, inner, rest) =>
      PlainIsBare(inner);
      PlainIsBare(rest);
  }

  lemma WithinThenRest(s: State, d: Document)
    requires d.Element? && Proper(d)
    ensures Gathered(Within(s, d), Sections(d.rest), TextOf(d.rest), LinkOf(d.rest), HasHeader(d.rest))
            == Gathered(s, Sections(d), TextOf(d), LinkOf(d), HasHeader(d))
  {
    var seen, rest := SectionsIn(d), d.rest;
    if d.tag == HeadingTag {
      PlainIsBare(d.inner);
      GatheredTwice(s, seen, [], None, false, Sections(rest), TextOf(rest), LinkOf(rest), HasHeader(rest));
    } else {
      var href := FirstOf(if d.tag == Anchor then FirstOf(None, d.href) else None, LinkOf(d.inner));
      GatheredTwice(s, seen, TextOf(d.inner), href, d.tag == HeaderCell || HasHeader(d.inner),
                    Sections(rest), TextOf(rest), LinkOf(rest), HasHeader(rest));
    }
  }

  /** What a stretch of document does to the machine between entries. */
  function Found(s: State, seen: seq<Section>, entries: seq<Entry>): State {
    s.(seen := s.seen + seen, entries := s.entries + entries)
  }

  lemma FoundTwice(s: State, seen1: seq<Section>, entries1: seq<Entry>, seen2: seq<Section>, entries2: seq<Entry>)
    ensures Found(Found(s, seen1, entries1), seen2, entries2) == Found(s, seen1 + seen2, entries1 + entries2)
  {
    assert (s.seen + seen1) + seen2 == s.seen + (seen1 + seen2);
    assert (s.entries + entries1) + entries2 == s.entries + (entries1 + entries2);
  }

  ghost predicate Between(s: State) {
    s.heading.None? && s.depth == 0 && s.words == [] && s.href.None? && !s.header
  }

  lemma {:induction false} OutsideEntries(s: State, d: Document)
    requires Proper(d) && Between(s)
    ensures Run(s, Tokens(d)) == Found(s, Sections(d), Walk(d, Last(s.seen)))
    decreases d, 1
  {
    match d
    case Empty =>
    case Words(words, rest) =>
      RunText(s, d);
      OutsideEntries(s, rest);
    case Element(tag, href, inner, rest) =>
      RunElement(s, d);
      ElementOutside(s, d);
      var seen, entries := SectionsIn(d), EntriesIn(d, Last(s.seen));
      OutsideEntries(Found(s, seen, entries), rest);
      FoundTwice(s, seen, entries, Sections(rest), Walk(rest, Last(s.seen + seen)));
  }

  lemma {:induction false} ElementOutside(s: State, d: Document)
    requires d.Element? && Proper(d) && Between(s)
    ensures Step(Run(Step(s, Start(d.tag, d.href)), Tokens(d.inner)), End(d.tag))
            == Found(s, SectionsIn(d), EntriesIn(d, Last(s.seen)))
    decreases d, 0
  {
    assert s.entries + [] == s.entries;
    if d.tag == HeadingTag {
      HeadingBetweenTags(s, d);
    } else if d.tag == EntryTag && s.seen != [] {
      EntryOutside(s, d);
    } else {
      OutsideEntries(s, d.inner);
    }
  }

  lemma EntryOutside(s: State, d: Document)
    requires d.Element? && d.tag == EntryTag && Proper(d) && Between(s) && s.seen != []
    ensures Step(Run(Step(s, Start(d.tag, d.href)), Tokens(d.inner)), End(d.tag))
            == Found(s, SectionsIn(d), EntriesIn(d, Last(s.seen)))
  {
    InsideEntry(s.(depth := 1), d.inner);
    EntryCloses(s, Sections(d.inner), TextOf(d.inner), LinkOf(d.inner), HasHeader(d.inner));
  }

  /** The end of an outermost entry. */
  lemma EntryCloses(s: State, seen: seq<Section>, words: seq<string>, href: Option<string>, header: bool)
    requires Between(s) && s.seen != [] && href != Some("")
    ensures Step(Gathered(s.(depth := 1), seen, words, href, header), End(EntryTag))
            == Found(s, seen, Finished(Current(Last(s.seen), seen), words, href, header))
  {
    assert [] + words == words;
    assert Last(s.seen + seen) == Current(Last(s.seen), seen);
  }

  /** Over any well-nested document the machine finds exactly the entries of the walk. */
  lemma MachineIsWalk(d: Document)
    requires Proper(d)
    ensures Run(INITIAL, Tokens(d)).entries == Walk(d, None)
    ensures Run(INITIAL, Tokens(d)).seen == Sections(d)
  {
    OutsideEntries(INITIAL, d);
  }

  lemma OneMoreHeading(seen: seq<Section>, opens: seq<Section>)
    requires |opens| <= 1
    ensures Last(seen + opens) == if opens == [] then Last(seen) else Some(opens[0])
    ensures Open in seen + opens <==> Open in seen || (opens != [] && opens[0] == Open)
    ensures Resolved in seen + opens <==> Resolved in seen || (opens != [] && opens[0] == Resolved)
  {
    assert seen + [] == seen;
  }

  // --- The parser object -------------------------------------------------------------------------

  /** What an entry's fields hold only counts while an entry is open. */
  function ViewOf(
      seen: seq<Section>, heading: Option<seq<string>>, depth: nat, words: seq<string>, href: Option<string>,
      header: bool, entries: seq<Entry>): State
  {
    if depth > 0 then State(seen, heading, depth, words, href, header, entries)
    else State(seen, heading, 0, [], None, false, entries)
  }

  class SectionParser {
    var section: Option<Section>
    var inHeading: bool
    var headingText: seq<string>
    var entryDepth: int
    var entryText: seq<string>
    var entryHref: Option<string>
    var entryIsHeaderRow: bool
    var sawOpenHeading: bool
    var sawResolvedHeading: bool
    var entries: seq<Entry>
    ghost var seen: seq<Section>

    /** Holds after any stream at all: the depth never goes negative, and an entry is only open in a section. */
    ghost predicate Valid()
      reads this
    {
      && entryDepth >= 0 && (entryDepth > 0 ==> section.Some?)
      && section == Last(seen)
      && (sawOpenHeading <==> Open in seen) && (sawResolvedHeading <==> Resolved in seen)
    }

    /** What still matters: leftovers of a finished heading or entry do not. */
    ghost function View(): State
      reads this
      requires Valid()
    {
      ViewOf(seen, if inHeading then Some(headingText) else None,
             entryDepth, entryText, entryHref, entryIsHeaderRow, entries)
    }

    constructor ()
      ensures Valid() && View() == INITIAL
    {
      section, inHeading, headingText, seen := None, false, [], [];
      entryDepth, entryText, entryHref, entryIsHeaderRow := 0, [], None, false;
      sawOpenHeading, sawResolvedHeading, entries := false, false, [];
    }

    method HandleStartTag(tag: Tag, href: Option<string>)
      requires Valid()
      modifies this
      ensures Valid() && View() == Step(old(View()), Start(tag, href))
    {
      if tag == HeadingTag {
        inHeading := true;
        headingText := [];
      } else if tag == EntryTag && section.Some? {
        entryDepth := entryDepth + 1;
        if entryDepth == 1 {
          entryText, entryHref, entryIsHeaderRow := [], None, false;
        }
      } else if tag == HeaderCell && entryDepth > 0 {
        entryIsHeaderRow := true;
      } else if tag == Anchor && entryDepth > 0 && entryHref.None? {
        if href.Some? && href.value != "" {
          entryHref := href;
        }
      }
    }

    method HandleEndTag(tag: Tag)
      requires Valid()
      modifies this
      ensures Valid() && View() == Step(old(View()), End(tag))
    {
      if tag == HeadingTag && inHeading {
        CloseHeading();
      } else if tag == EntryTag && entryDepth > 0 {
        CloseEntry();
      }
    }

    method CloseHeading()
      requires Valid() && inHeading
      modifies this
      ensures Valid() && View() == Step(old(View()), End(HeadingTag))
    {
      var opens := Opens(headingText);
      OneMoreHeading(seen, opens);
      inHeading, seen := false, seen + opens;
      if opens != [] {
        Enter(opens[0]);
      }
    }

    /** A matching heading sets the section and its flag. */
    method Enter(which: Section)
      modifies this`section, this`sawOpenHeading, this`sawResolvedHeading
      ensures section == Some(which)
      ensures sawOpenHeading == (old(sawOpenHeading) || which == Open)
      ensures sawResolvedHeading == (old(sawResolvedHeading) || which == Resolved)
    {
      section := Some(which);
      if which == Open {
        sawOpenHeading := true;
      } else {
        sawResolvedHeading := true;
      }
    }

    method CloseEntry()
      requires Valid() && entryDepth > 0
      modifies this
      ensures Valid() && View() == Step(old(View()), End(EntryTag))
    {
      entryDepth := entryDepth - 1;
      if entryDepth == 0 && section.Some? {
        assert entries + [] == entries;
        if entryText != [] && !entryIsHeaderRow {
          entries := entries + [Entry(section.value, entryText, entryHref)];
        }
      }
    }

    method HandleData(words: seq<string>)
      requires Valid()
      modifies this
      ensures Valid() && View() == Step(old(View()), Text(words))
    {
      if inHeading {
        headingText := headingText + words;
      } else if entryDepth > 0 {
        entryText := entryText + words;
      }
    }

    method Feed(tokens: seq<Token>)
      requires Valid()
      modifies this
      ensures Valid() && View() == Run(old(View()), tokens)
    {
      var i := 0;
      while i < |tokens|
        invariant 0 <= i <= |tokens| && Valid()
        invariant View() == Run(old(View()), tokens[..i])
      {
        assert tokens[..i + 1][..i] == tokens[..i];
        match tokens[i] {
          case Start(tag, href) => HandleStartTag(tag, href);
          case End(tag) => HandleEndTag(tag);
          case Text(words) => HandleData(words);
        }
        i := i + 1;
      }
      assert tokens[..i] == tokens;
    }
  }

  // --- The two buckets ------------------------------------------------------------------------------

  function Bucket(entries: seq<Entry>, section: Section, split: (seq<string>, Option<string>) -> Advisory)
    : seq<Advisory>
  {
    if entries == [] then [] else
      var n := |entries| - 1;
      Bucket(entries[..n], section, split)
      + (if entries[n].section == section then [split(entries[n].words, entries[n].href)] else [])
  }

  method Collect(entries: seq<Entry>, section: Section, split: (seq<string>, Option<string>) -> Advisory)
    returns (bucket: seq<Advisory>)
    ensures bucket == Bucket(entries, section, split)
  {
    bucket := [];
    for i := 0 to |entries|
      invariant bucket == Bucket(entries[..i], section, split)
    {
      assert entries[..i + 1][..i] == entries[..i];
      if entries[i].section == section {
        bucket := bucket + [split(entries[i].words, entries[i].href)];
      }
    }
    assert entries[..|entries|] == entries;
  }

  lemma SomeSection(seen: seq<Section>)
    ensures seen != [] <==> Open in seen || Resolved in seen
  {
    if seen != [] {
      assert seen[0] == Open || seen[0] == Resolved;
    }
  }

  /** Parses a page; a page without either heading is not trusted at all. */
  method ParseAdvisories(tokens: seq<Token>, split: (seq<string>, Option<string>) -> Advisory)
    returns (open: seq<Advisory>, resolved: seq<Advisory>, parsedOk: bool)
    ensures parsedOk <==> Run(INITIAL, tokens).seen != []
    ensures open == Bucket(Run(INITIAL, tokens).entries, Open, split)
    ensures resolved == Bucket(Run(INITIAL, tokens).entries, Resolved, split)
  {
    var parser := new SectionParser();
    parser.Feed(tokens);
    RunIsSane(tokens);
    open, resolved := [], [];
    SomeSection(parser.seen);
    if !(parser.sawOpenHeading || parser.sawResolvedHeading) {
      return open, resolved, false;
    }
    open := Collect(parser.entries, Open, split);
    resolved := Collect(parser.entries, Resolved, split);
    parsedOk := true;
  }

  /** The buckets share out the document's entries: each is in one of them, and a page that is not trusted has none. */
  lemma {:induction false} BucketsShareOut(entries: seq<Entry>, split: (seq<string>, Option<string>) -> Advisory)
    ensures |Bucket(entries, Open, split)| + |Bucket(entries, Resolved, split)| == |entries|
    ensures forall i :: 0 <= i < |entries| ==>
              split(entries[i].words, entries[i].href) in Bucket(entries, entries[i].section, split)
  {
    if entries != [] {
      BucketsShareOut(entries[..|entries| - 1], split);
    }
  }

  lemma UntrustedPageIsEmpty(d: Document)
    requires Proper(d) && Sections(d) == []
    ensures Walk(d, None) == []
  {
    MachineIsWalk(d);
    RunIsSane(Tokens(d));
  }

  // --- A page as it is published -----------------------------------------------------------------------

  /** An advisory on the page: the words of its line, and its link if any. */
  datatype Item = Item(words: seq<string>, href: Option<string>)

  function Heading(words: seq<string>, rest: Document): Document {
    Element(HeadingTag, None, Words(words, Empty), rest)
  }

  /** A table: a header row, and a row with a link for each item. */
  function Table(items: seq<Item>, rest: Document): Document {
    Element(EntryTag, None, Element(HeaderCell, None, Words(["Advisory"], Empty), Empty), RowsOf(items, rest))
  }

  function RowsOf(items: seq<Item>, rest: Document): Document {
    if items == [] then rest
    else
      Element(EntryTag, None, Element(Anchor, items[0].href, Words(items[0].words, Empty), Empty),
              RowsOf(items[1..], rest))
  }

  function Page(open: seq<Item>, resolved: seq<Item>): Document {
    Heading(["Open", "Customer", "Advisories"],
            Table(open, Heading(["Resolved", "Customer", "Advisories"], Table(resolved, Empty))))
  }

  function EntriesFor(items: seq<Item>, section: Section): (r: seq<Entry>)
    ensures |r| == |items|
    ensures forall i :: 0 <= i < |r| ==>
              && r[i].section == section && r[i].words == items[i].words
              && r[i].href == if items[i].href == Some("") then None else items[i].href
  {
    seq(|items|, i requires 0 <= i < |items| => Entry(section, items[i].words, OrNone(items[i].href)))
  }

  ghost predicate Worded(items: seq<Item>) {
    forall i :: 0 <= i < |items| ==> items[i].words != []
  }

  lemma {:induction false} RowsAreEntries(items: seq<Item>, rest: Document, section: Section)
    requires Worded(items)
    ensures Walk(RowsOf(items, rest), Some(section)) == EntriesFor(items, section) + Walk(rest, Some(section))
    ensures Sections(RowsOf(items, rest)) == Sections(rest) && (Proper(rest) ==> Proper(RowsOf(items, rest)))
  {
    if items == [] {
      assert EntriesFor(items, section) == [];
    } else {
      RowsAreEntries(items[1..], rest, section);
      OneRow(items[0], RowsOf(items[1..], rest), section);
      assert EntriesFor(items, section)
             == [Entry(section, items[0].words, OrNone(items[0].href))] + EntriesFor(items[1..], section);
    }
  }

  lemma OneRow(item: Item, rest: Document, section: Section)
    requires item.words != []
    ensures var row := Element(EntryTag, None, Element(Anchor, item.href, Words(item.words, Empty), Empty), rest);
            && Walk(row, Some(section))
               == [Entry(section, item.words, OrNone(item.href))] + Walk(rest, Some(section))
            && Sections(row) == Sections(rest) && (Proper(rest) ==> Proper(row))
  {
    JustText(item.words);
    JustOne(Anchor, item.href, item.words);
  }

  lemma JustText(words: seq<string>)
    ensures var d := Words(words, Empty);
            && TextOf(d) == words && LinkOf(d).None? && !HasHeader(d) && Sections(d) == [] && Plain(d) && Proper(d)
  {
    assert TextOf(Empty) == [] && words + [] == words;
    assert Sections(Empty) == [] && LinkOf(Empty).None? && !HasHeader(Empty) && Plain(Empty) && Proper(Empty);
  }

  lemma JustOne(tag: Tag, href: Option<string>, words: seq<string>)
    requires tag == Anchor || tag == HeaderCell
    ensures var d := Element(tag, href, Words(words, Empty), Empty);
            && TextOf(d) == words && HasHeader(d) == (tag == HeaderCell) && Sections(d) == [] && Proper(d)
            && LinkOf(d) == if tag == Anchor then OrNone(href) else None
  {
    JustText(words);
    assert TextOf(Empty) == [] && words + [] == words;
    assert Sections(Empty) == [] && LinkOf(Empty).None? && !HasHeader(Empty) && Proper(Empty);
  }

  lemma TableIsEntries(items: seq<Item>, rest: Document, section: Section)
    requires Worded(items)
    ensures Walk(Table(items, rest), Some(section)) == EntriesFor(items, section) + Walk(rest, Some(section))
    ensures Sections(Table(items, rest)) == Sections(rest) && (Proper(rest) ==> Proper(Table(items, rest)))
  {
    RowsAreEntries(items, rest, section);
    JustOne(HeaderCell, None, ["Advisory"]);
  }

  lemma HeadingOpens(words: seq<string>, rest: Document, section: Section, before: Option<Section>)
    requires Opens(words) == [section]
    ensures Walk(Heading(words, rest), before) == Walk(rest, Some(section))
    ensures Sections(Heading(words, rest)) == [section] + Sections(rest)
    ensures Proper(rest) ==> Proper(Heading(words, rest))
  {
    JustText(words);
  }

  lemma OpenHeading()
    ensures Opens(["Open", "Customer", "Advisories"]) == [Open]
  {
    assert Lower("Open") == "open";
    assert Lower("Customer") == "customer";
    assert "advisor" <= Lower("Advisories");
    assert ReadsAt(["Open", "Customer", "Advisories"], "open", 0);
    OpensIff(["Open", "Customer", "Advisories"]);
  }

  lemma ResolvedHeading()
    ensures Opens(["Resolved", "Customer", "Advisories"]) == [Resolved]
  {
    assert Lower("Resolved") == "resolved";
    assert Lower("Customer") == "customer";
    assert "advisor" <= Lower("Advisories");
    assert ReadsAt(["Resolved", "Customer", "Advisories"], "resolved", 0);
    assert !EndsWith("resolved", "open") by {
      assert "resolved"[7] != "open"[3];
    }
    assert !Reads(["Resolved", "Customer", "Advisories"], "open");
    OpensIff(["Resolved", "Customer", "Advisories"]);
  }

  /** What is published is what is read: every advisory, under its heading, in order, with its words and its link. */
  lemma PublishedIsParsed(open: seq<Item>, resolved: seq<Item>)
    requires Worded(open) && Worded(resolved)
    ensures var s := Run(INITIAL, Tokens(Page(open, resolved)));
            s.entries == EntriesFor(open, Open) + EntriesFor(resolved, Resolved) && s.seen == [Open, Resolved]
  {
    OpenHeading();
    ResolvedHeading();
    var second := Heading(["Resolved", "Customer", "Advisories"], Table(resolved, Empty));
    TableIsEntries(resolved, Empty, Resolved);
    HeadingOpens(["Resolved", "Customer", "Advisories"], Table(resolved, Empty), Resolved, Some(Open));
    TableIsEntries(open, second, Open);
    HeadingOpens(["Open", "Customer", "Advisories"], Table(open, second), Open, None);
    MachineIsWalk(Page(open, resolved));
  }

  function SplitAll(items: seq<Item>, split: (seq<string>, Option<string>) -> Advisory): (r: seq<Advisory>)
    ensures |r| == |items|
    ensures forall i :: 0 <= i < |items| ==> r[i] == split(items[i].words, OrNone(items[i].href))
  {
    seq(|items|, i requires 0 <= i < |items| => split(items[i].words, OrNone(items[i].href)))
  }

  lemma {:induction false} BucketAppend(
      a: seq<Entry>, b: seq<Entry>, which: Section, split: (seq<string>, Option<string>) -> Advisory)
    ensures Bucket(a + b, which, split) == Bucket(a, which, split) + Bucket(b, which, split)
  {
    if b == [] {
      assert a + b == a;
    } else {
      assert (a + b)[..|a + b| - 1] == a + b[..|b| - 1];
      BucketAppend(a, b[..|b| - 1], which, split);
    }
  }

  lemma BucketSnoc(
      entries: seq<Entry>, entry: Entry, which: Section, split: (seq<string>, Option<string>) -> Advisory)
    ensures Bucket(entries + [entry], which, split)
         == Bucket(entries, which, split) + if entry.section == which then [split(entry.words, entry.href)] else []
  {
    assert (entries + [entry])[..|entries|] == entries;
  }

  lemma {:induction false} BucketOf(
      items: seq<Item>, section: Section, which: Section, split: (seq<string>, Option<string>) -> Advisory)
    ensures Bucket(EntriesFor(items, section), which, split) == if section == which then SplitAll(items, split) else []
  {
    if items != [] {
      var n := |items| - 1;
      var last := Entry(section, items[n].words, OrNone(items[n].href));
      BucketOf(items[..n], section, which, split);
      assert EntriesFor(items, section) == EntriesFor(items[..n], section) + [last];
      BucketSnoc(EntriesFor(items[..n], section), last, which, split);
      assert SplitAll(items, split) == SplitAll(items[..n], split) + [split(last.words, last.href)];
    }
  }

  lemma BucketOfBoth(
      open: seq<Item>, resolved: seq<Item>, which: Section, split: (seq<string>, Option<string>) -> Advisory)
    ensures Bucket(EntriesFor(open, Open) + EntriesFor(resolved, Resolved), which, split)
         == SplitAll(if which == Open then open else resolved, split)
  {
    BucketAppend(EntriesFor(open, Open), EntriesFor(resolved, Resolved), which, split);
    BucketOf(open, Open, which, split);
    BucketOf(resolved, Resolved, which, split);
  }

  /** So each list holds just the advisories published under its heading. */
  lemma PublishedIsBucketed(
      open: seq<Item>, resolved: seq<Item>, split: (seq<string>, Option<string>) -> Advisory)
    requires Worded(open) && Worded(resolved)
    ensures var s := Run(INITIAL, Tokens(Page(open, resolved)));
            && s.seen != []
            && Bucket(s.entries, Open, split) == SplitAll(open, split)
            && Bucket(s.entries, Resolved, split) == SplitAll(resolved, split)
  {
    PublishedIsParsed(open, resolved);
    BucketOfBoth(open, resolved, Open, split);
    BucketOfBoth(open, resolved, Resolved, split);
  }
}
