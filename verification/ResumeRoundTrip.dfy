/** Reading a rendered resume gives back its sections, its summary, its certifications and its skills. */
module ResumeRoundTrip {
  import opened Wrappers
  import opened Text
  import opened Resume

  /** What is asked of `str.lower`: the five headings the renderer writes, in lower case. */
  ghost predicate Lowers(lower: string -> string) {
    lower("Professional Summary") == "professional summary" && lower("Experience") == "experience" &&
    lower("Education") == "education" && lower("Skills") == "skills" && lower("Certifications") == "certifications"
  }

  /** The lines a paragraph becomes in the text. */
  function BodyLines(paragraph: string): seq<string> {
    if Strip(paragraph) == "" then [] else Split(Strip(paragraph), '\n')
  }

  ghost predicate Plain(lower: string -> string, paragraphs: seq<string>) {
    forall line :: line in FlatMap(BodyLines, paragraphs) ==> !IsHeader(lower, line)
  }

  /** No line below or between the headings reads like a section header. */
  ghost predicate NoBodyHeader(lower: string -> string, r: Context) {
    Plain(lower, Header(r)) && forall b :: b in Blocks(r) ==> Plain(lower, b.body)
  }

  function BodyText(paragraphs: seq<string>): string {
    SectionText(Map(Strip, FlatMap(BodyLines, paragraphs)))
  }

  function Entry(wanted: bool, name: string, body: seq<string>): map<string, string> {
    One(wanted, name, BodyText(body))
  }

  function One<K, V>(wanted: bool, k: K, v: V): map<K, V> {
    if wanted then map[k := v] else map[]
  }

  /** The sections a reader should find. */
  function Written(r: Context): map<string, string> {
    Entry(r.summary != "", "professional summary", [r.summary]) +
    Entry(r.experience != [], "experience", FlatMap(JobParagraphs, r.experience)) +
    Entry(r.education != [], "education", Map(DegreeParagraph, r.education)) +
    Entry(r.skills != [], "skills", [Join(", ", r.skills)]) +
    Entry(r.certifications != [], "certifications", r.certifications)
  }

  // ---------------------------------------------------------------- the text is the paragraphs' lines

  function LinesOf(text: string): seq<string> {
    Split(text, '\n')
  }

  lemma {:induction false} KeptLines(paragraphs: seq<string>)
    ensures FlatMap(LinesOf, NonEmpty(Map(Strip, paragraphs))) == FlatMap(BodyLines, paragraphs)
  {
    if paragraphs != [] {
      var n := |paragraphs| - 1;
      KeptLines(paragraphs[..n]);
      TakeSnoc(paragraphs);
      MapSnoc(Strip, paragraphs[..n], paragraphs[n]);
      NonEmptySnoc(Map(Strip, paragraphs[..n]), Strip(paragraphs[n]));
      FlatMapSnoc(LinesOf, NonEmpty(Map(Strip, paragraphs[..n])), Strip(paragraphs[n]));
    }
  }

  lemma {:induction false} SameMap<A, B>(f: A -> seq<B>, g: A -> seq<B>, xs: seq<A>)
    requires forall x :: x in xs ==> f(x) == g(x)
    ensures FlatMap(f, xs) == FlatMap(g, xs)
  {
    if xs != [] { SameMap(f, g, xs[..|xs| - 1]); }
  }

  lemma LinesOfText(paragraphs: seq<string>)
    requires RawText(paragraphs).Ok?
    ensures Split(RawText(paragraphs).value, '\n') == FlatMap(BodyLines, paragraphs)
  {
    var kept := NonEmpty(Map(Strip, paragraphs));
    SplitJoin(kept, '\n');
    SameMap(s => Split(s, '\n'), LinesOf, kept);
    KeptLines(paragraphs);
  }

  // ---------------------------------------------------------------- scanning

  lemma ScanSnoc(lower: string -> string, lines: seq<string>, line: string)
    ensures ScanLines(lower, lines + [line]) == ScanLine(lower, ScanLines(lower, lines), line)
  {
    assert (lines + [line])[..|lines|] == lines;
  }

  function Extended(scan: Scan, lines: seq<string>): Scan {
    if scan.current.None? then scan else scan.(lines := scan.lines + Map(Strip, lines))
  }

  lemma ExtendOne(scan: Scan, lines: seq<string>, line: string)
    ensures Extended(scan, lines + [line]) ==
      if scan.current.None? then scan else scan.(lines := Extended(scan, lines).lines + [Strip(line)])
  {
    MapSnoc(Strip, lines, line);
    CatAssociates(scan.lines, Map(Strip, lines), [Strip(line)]);
  }

  lemma {:induction false} ScanPlain(lower: string -> string, before: seq<string>, lines: seq<string>)
    requires forall line :: line in lines ==> !IsHeader(lower, line)
    ensures ScanLines(lower, before + lines) == Extended(ScanLines(lower, before), lines)
  {
    if lines == [] {
      assert before + lines == before;
      var scan := ScanLines(lower, before);
      assert scan.lines + Map(Strip, lines) == scan.lines;
    } else {
      var n := |lines| - 1;
      ScanPlain(lower, before, lines[..n]);
      TakeSnoc(lines);
      CatAssociates(before, lines[..n], [lines[n]]);
      ScanSnoc(lower, before + lines[..n], lines[n]);
      ExtendOne(ScanLines(lower, before), lines[..n], lines[n]);
    }
  }

  lemma ScanBlock(lower: string -> string, before: seq<string>, heading: string, lines: seq<string>)
    requires IsHeader(lower, heading)
    requires forall line :: line in lines ==> !IsHeader(lower, line)
    ensures ScanLines(lower, before + ([heading] + lines)) ==
      Scan(Closed(ScanLines(lower, before)), Some(Normalized(lower, heading)), Map(Strip, lines))
  {
    ScanSnoc(lower, before, heading);
    ScanPlain(lower, before + [heading], lines);
    CatAssociates(before, [heading], lines);
    CatNothing(Map(Strip, lines));
  }

  /** A heading that survives the trip as one header line, over a body without headers. */
  ghost predicate Good(lower: string -> string, b: Block) {
    BodyLines(b.heading) == [b.heading] && IsHeader(lower, b.heading) && Plain(lower, b.body)
  }

  function Name(lower: string -> string): Block -> string {
    (b: Block) => Normalized(lower, b.heading)
  }

  function Content(b: Block): string {
    BodyText(b.body)
  }

  function Found(lower: string -> string, blocks: seq<Block>): map<string, string> {
    Merge(Name(lower), Content, blocks)
  }

  lemma BlockLines(b: Block)
    requires BodyLines(b.heading) == [b.heading]
    ensures FlatMap(BodyLines, BlockParagraphs(b)) == [b.heading] + FlatMap(BodyLines, b.body)
  {
    FlatMapCat(BodyLines, [b.heading], b.body);
    FlatMapOne(BodyLines, b.heading);
  }

  lemma OneMoreBlock(lower: string -> string, before: seq<string>, b: Block)
    requires Good(lower, b)
    ensures Closed(ScanLines(lower, FlatMap(BodyLines, before + BlockParagraphs(b)))) ==
      Closed(ScanLines(lower, FlatMap(BodyLines, before)))[Normalized(lower, b.heading) := BodyText(b.body)]
  {
    FlatMapCat(BodyLines, before, BlockParagraphs(b));
    BlockLines(b);
    ScanBlock(lower, FlatMap(BodyLines, before), b.heading, FlatMap(BodyLines, b.body));
  }

  lemma {:induction false} SectionsOfBlocks(lower: string -> string, header: seq<string>, blocks: seq<Block>)
    requires Plain(lower, header) && forall b :: b in blocks ==> Good(lower, b)
    ensures Closed(ScanLines(lower, FlatMap(BodyLines, header + FlatMap(BlockParagraphs, blocks)))) ==
      Found(lower, blocks)
  {
    if blocks == [] {
      assert header + FlatMap(BlockParagraphs, blocks) == header;
      var lines := FlatMap(BodyLines, header);
      ScanPlain(lower, [], lines);
      CatNothing(lines);
    } else {
      var n := |blocks| - 1;
      SectionsOfBlocks(lower, header, blocks[..n]);
      OneMoreBlock(lower, header + FlatMap(BlockParagraphs, blocks[..n]), blocks[n]);
      CatAssociates(header, FlatMap(BlockParagraphs, blocks[..n]), BlockParagraphs(blocks[n]));
    }
  }

  // ---------------------------------------------------------------- the five headings

  lemma HeadingIsRead(lower: string -> string, heading: string, name: string, k: nat)
    requires heading != "" && Trimmed(heading) && '\n' !in heading
    requires name != "" && name[|name| - 1] != ':' && lower(heading) == name
    requires k < |SECTION_HEADERS| && SECTION_HEADERS[k] == name
    ensures BodyLines(heading) == [heading] && IsHeader(lower, heading) && Normalized(lower, heading) == name
  {
    SplitNone(heading, '\n');
  }

  lemma FoundFive(lower: string -> string, a: seq<Block>, b: seq<Block>, c: seq<Block>, d: seq<Block>, e: seq<Block>)
    ensures Found(lower, a + b + c + d + e) ==
      Found(lower, a) + Found(lower, b) + Found(lower, c) + Found(lower, d) + Found(lower, e)
  {
    MergeCat(Name(lower), Content, a + b + c + d, e);
    MergeCat(Name(lower), Content, a + b + c, d);
    MergeCat(Name(lower), Content, a + b, c);
    MergeCat(Name(lower), Content, a, b);
  }

  /** A section the renderer may write is found under its name. */
  ghost predicate IsFound(lower: string -> string, blocks: seq<Block>, found: map<string, string>) {
    Found(lower, blocks) == found &&
    forall b :: b in blocks ==> BodyLines(b.heading) == [b.heading] && IsHeader(lower, b.heading)
  }

  lemma BlockIsFound(lower: string -> string, wanted: bool, heading: string, name: string, body: seq<string>)
    requires BodyLines(heading) == [heading] && IsHeader(lower, heading) && Normalized(lower, heading) == name
    ensures IsFound(lower, BlockIf(wanted, heading, body), Entry(wanted, name, body))
  {
    if wanted {
      CatNothing([Block(heading, body)]);
      MergeSnoc(Name(lower), Content, [], Block(heading, body));
    }
  }

  lemma SummaryIsFound(lower: string -> string, r: Context)
    requires Lowers(lower)
    ensures IsFound(lower, SummaryBlock(r), Entry(r.summary != "", "professional summary", [r.summary]))
  {
    HeadingIsRead(lower, "Professional Summary", "professional summary", 2);
    BlockIsFound(lower, r.summary != "", "Professional Summary", "professional summary", [r.summary]);
  }

  lemma ExperienceIsFound(lower: string -> string, r: Context)
    requires Lowers(lower)
    ensures IsFound(lower, ExperienceBlock(r),
      Entry(r.experience != [], "experience", FlatMap(JobParagraphs, r.experience)))
  {
    HeadingIsRead(lower, "Experience", "experience", 4);
    BlockIsFound(lower, r.experience != [], "Experience", "experience", FlatMap(JobParagraphs, r.experience));
  }

  lemma EducationIsFound(lower: string -> string, r: Context)
    requires Lowers(lower)
    ensures IsFound(lower, EducationBlock(r), Entry(r.education != [], "education", Map(DegreeParagraph, r.education)))
  {
    HeadingIsRead(lower, "Education", "education", 8);
    BlockIsFound(lower, r.education != [], "Education", "education", Map(DegreeParagraph, r.education));
  }

  lemma SkillsAreFound(lower: string -> string, r: Context)
    requires Lowers(lower)
    ensures IsFound(lower, SkillsBlock(r), Entry(r.skills != [], "skills", [Join(", ", r.skills)]))
  {
    HeadingIsRead(lower, "Skills", "skills", 10);
    BlockIsFound(lower, r.skills != [], "Skills", "skills", [Join(", ", r.skills)]);
  }

  lemma CertificationsAreFound(lower: string -> string, r: Context)
    requires Lowers(lower)
    ensures IsFound(lower, CertificationsBlock(r), Entry(r.certifications != [], "certifications", r.certifications))
  {
    HeadingIsRead(lower, "Certifications", "certifications", 14);
    BlockIsFound(lower, r.certifications != [], "Certifications", "certifications", r.certifications);
  }

  lemma AllAreFound(lower: string -> string, r: Context)
    requires Lowers(lower)
    ensures IsFound(lower, Blocks(r), Written(r))
  {
    SummaryIsFound(lower, r);
    ExperienceIsFound(lower, r);
    EducationIsFound(lower, r);
    SkillsAreFound(lower, r);
    CertificationsAreFound(lower, r);
    FoundFive(lower, SummaryBlock(r), ExperienceBlock(r), EducationBlock(r), SkillsBlock(r), CertificationsBlock(r));
  }

  /** The round trip: a reader of the rendered resume finds exactly the sections that were written. */
  lemma SectionsAreRecovered(lower: string -> string, r: Context)
    requires Lowers(lower) && NoBodyHeader(lower, r)
    ensures RawText(Paragraphs(r)) == Err(NoText) <==> FlatMap(BodyLines, Paragraphs(r)) == []
    ensures RawText(Paragraphs(r)).Ok? ==> Sections(lower, RawText(Paragraphs(r)).value) == Written(r)
  {
    KeptLines(Paragraphs(r));
    if RawText(Paragraphs(r)).Ok? {
      LinesOfText(Paragraphs(r));
      AllAreFound(lower, r);
      SectionsOfBlocks(lower, Header(r), Blocks(r));
    }
  }

  // ---------------------------------------------------------------- the values come back

  lemma FiveEntries<K, V>(w: seq<bool>, k: seq<K>, v: seq<V>, i: nat)
    requires |w| == |k| == |v| == 5 && i < 5 && w[i]
    requires forall i, j :: 0 <= i < j < 5 ==> k[i] != k[j]
    ensures var m := One(w[0], k[0], v[0]) + One(w[1], k[1], v[1]) + One(w[2], k[2], v[2]) + One(w[3], k[3], v[3]) +
      One(w[4], k[4], v[4]);
      k[i] in m && m[k[i]] == v[i]
  {
  }

  const NAMES: seq<string> := ["professional summary", "experience", "education", "skills", "certifications"]

  lemma NamesDiffer()
    ensures forall i, j :: 0 <= i < j < 5 ==> NAMES[i] != NAMES[j]
  {
    assert |NAMES[0]| == 20 && |NAMES[1]| == 10 && |NAMES[2]| == 9 && |NAMES[3]| == 6 && |NAMES[4]| == 14;
  }

  lemma WrittenEntry(r: Context, i: nat)
    requires i < 5
    requires [r.summary != "", r.experience != [], r.education != [], r.skills != [], r.certifications != []][i]
    ensures NAMES[i] in Written(r) && Written(r)[NAMES[i]] ==
      [BodyText([r.summary]), BodyText(FlatMap(JobParagraphs, r.experience)),
       BodyText(Map(DegreeParagraph, r.education)),
       BodyText([Join(", ", r.skills)]), BodyText(r.certifications)][i]
  {
    NamesDiffer();
    FiveEntries([r.summary != "", r.experience != [], r.education != [], r.skills != [], r.certifications != []], NAMES,
                [BodyText([r.summary]), BodyText(FlatMap(JobParagraphs, r.experience)),
                 BodyText(Map(DegreeParagraph, r.education)),
                 BodyText([Join(", ", r.skills)]), BodyText(r.certifications)], i);
  }

  /** A non-empty string without line breaks or space around it: it stays one line as it is. */
  predicate OneLine(s: string) {
    s != "" && Trimmed(s) && '\n' !in s
  }

  lemma LinesStay(paragraphs: seq<string>)
    requires paragraphs != [] && forall p :: p in paragraphs ==> OneLine(p)
    ensures FlatMap(BodyLines, paragraphs) == paragraphs && BodyText(paragraphs) == Join("\n", paragraphs)
  {
    forall p | p in paragraphs
      ensures BodyLines(p) == [p] && Strip(p) == p
    {
      SplitNone(p, '\n');
    }
    FlatMapSingles(BodyLines, paragraphs);
    MapSame(Strip, paragraphs);
    JoinIsTrimmed(paragraphs);
  }

  lemma JoinIsTrimmed(lines: seq<string>)
    requires lines != [] && forall line :: line in lines ==> OneLine(line)
    ensures Trimmed(Join("\n", lines))
  {
    assert OneLine(lines[0]) && OneLine(lines[|lines| - 1]);
    JoinEnds("\n", lines);
  }

  /** The lines of the paragraphs, each stripped. */
  function BodyStripped(paragraphs: seq<string>): seq<string> {
    Map(Strip, FlatMap(BodyLines, paragraphs))
  }

  lemma StrippedLinesEnd(s: string)
    requires s != "" && Trimmed(s)
    ensures var lines := Map(Strip, Split(s, '\n')); lines[0] != "" && lines[|lines| - 1] != ""
  {
    var lines := Split(s, '\n');
    SplitEnds(s);
    StripNotEmpty(lines[0], 0);
    StripNotEmpty(lines[|lines| - 1], |lines[|lines| - 1]| - 1);
  }

  lemma StrippedLinesHoldNoBreak(s: string)
    ensures forall line :: line in Map(Strip, Split(s, '\n')) ==> '\n' !in line
  {
    JoinSplit(s, '\n');
    StripLines(Split(s, '\n'));
  }

  lemma OneParagraphStripped(p: string)
    requires Strip(p) != ""
    ensures var lines := Map(Strip, BodyLines(p));
      lines != [] && lines[0] != "" && lines[|lines| - 1] != "" && forall line :: line in lines ==> '\n' !in line
  {
    StrippedLinesEnd(Strip(p));
    StrippedLinesHoldNoBreak(Strip(p));
  }

  /** They hold no line break, and neither the first nor the last is empty. */
  lemma {:induction false} StrippedEnds(paragraphs: seq<string>)
    ensures var lines := BodyStripped(paragraphs);
      (forall line :: line in lines ==> '\n' !in line) && (lines != [] ==> lines[0] != "" && lines[|lines| - 1] != "")
  {
    if paragraphs != [] {
      var n := |paragraphs| - 1;
      StrippedEnds(paragraphs[..n]);
      StrippedSnoc(paragraphs);
      if Strip(paragraphs[n]) != "" { OneParagraphStripped(paragraphs[n]); }
    }
  }

  lemma StrippedSnoc(paragraphs: seq<string>)
    requires paragraphs != []
    ensures var n := |paragraphs| - 1;
      BodyStripped(paragraphs) == BodyStripped(paragraphs[..n]) + Map(Strip, BodyLines(paragraphs[n]))
  {
    var n := |paragraphs| - 1;
    TakeSnoc(paragraphs);
    FlatMapSnoc(BodyLines, paragraphs[..n], paragraphs[n]);
    MapCat(Strip, FlatMap(BodyLines, paragraphs[..n]), BodyLines(paragraphs[n]));
  }

  /** So the text of a section splits into exactly these lines, or into one empty line if there are none. */
  lemma SectionSplits(paragraphs: seq<string>)
    ensures var lines := BodyStripped(paragraphs);
      Split(BodyText(paragraphs), '\n') == if lines == [] then [""] else lines
  {
    var lines := BodyStripped(paragraphs);
    StrippedEnds(paragraphs);
    if lines != [] {
      JoinEnds("\n", lines);
      assert Trimmed(lines[0]) && Trimmed(lines[|lines| - 1]);
      SplitUndoesJoin(lines, '\n');
    }
  }

  lemma {:induction false} SameLinesAreOneLine(paragraphs: seq<string>)
    requires forall p :: p in paragraphs ==> Trimmed(p) && '\n' !in p
    ensures BodyStripped(paragraphs) == NonEmpty(paragraphs)
  {
    if paragraphs != [] {
      var n := |paragraphs| - 1;
      SameLinesAreOneLine(paragraphs[..n]);
      StrippedSnoc(paragraphs);
      TakeSnoc(paragraphs);
      NonEmptySnoc(paragraphs[..n], paragraphs[n]);
      assert paragraphs[n] in paragraphs;
      SplitNone(paragraphs[n], '\n');
      if paragraphs[n] == "" { assert Map(Strip, BodyLines(paragraphs[n])) == []; }
      else { assert Map(Strip, [paragraphs[n]]) == [paragraphs[n]]; }
    }
  }

  lemma {:induction false} NonEmptyIsSame(parts: seq<string>)
    ensures |NonEmpty(parts)| <= |parts| && (NonEmpty(parts) == parts <==> "" !in parts)
  {
    if parts != [] {
      var n := |parts| - 1;
      NonEmptyIsSame(parts[..n]);
      TakeSnoc(parts);
    }
  }

  /** The paragraphs come back as the lines of their section exactly when each is one line, or there is
      nothing but one empty paragraph. */
  lemma ParagraphsSplitIff(paragraphs: seq<string>)
    requires paragraphs != []
    ensures Split(BodyText(paragraphs), '\n') == paragraphs <==>
      paragraphs == [""] || forall p :: p in paragraphs ==> OneLine(p)
  {
    SectionSplits(paragraphs);
    StrippedEnds(paragraphs);
    if paragraphs == [""] {
      SameLinesAreOneLine(paragraphs);
      assert [""][..0] == [];
    } else if forall p :: p in paragraphs ==> Trimmed(p) && '\n' !in p {
      SameLinesAreOneLine(paragraphs);
      NonEmptyIsSame(paragraphs);
    } else {
      assert forall line :: line in BodyStripped(paragraphs) ==> Trimmed(line);
    }
  }

  /** The certifications are read back, one a line, exactly when each is one line (or the list holds just
      one empty certification). */
  lemma CertificationsAreRecoveredIff(lower: string -> string, r: Context)
    requires Lowers(lower) && NoBodyHeader(lower, r) && RawText(Paragraphs(r)).Ok? && r.certifications != []
    ensures var sections := Sections(lower, RawText(Paragraphs(r)).value);
      "certifications" in sections &&
      (Split(sections["certifications"], '\n') == r.certifications <==>
        r.certifications == [""] || forall c :: c in r.certifications ==> OneLine(c))
  {
    SectionsAreRecovered(lower, r);
    WrittenEntry(r, 4);
    ParagraphsSplitIff(r.certifications);
  }

  lemma {:induction false} StripLines(lines: seq<string>)
    requires forall line :: line in lines ==> '\n' !in line
    ensures forall line :: line in Map(Strip, lines) ==> '\n' !in line
  {
    forall k | 0 <= k < |lines|
      ensures '\n' !in Map(Strip, lines)[k]
    {
      StripKeepsAbsent(lines[k], '\n');
    }
  }

  /** The first line of a trimmed text starts as the text does, its last line ends as the text does. */
  lemma {:induction false} SplitEnds(s: string)
    requires s != ""
    ensures var lines := Split(s, '\n'); var last := lines[|lines| - 1];
      && (s[0] != '\n' ==> lines[0] != "" && lines[0][0] == s[0])
      && (s[|s| - 1] != '\n' ==> last != "" && last[|last| - 1] == s[|s| - 1])
  {
    var rest := Split(s[1..], '\n');
    if |s| == 1 {
      assert s[1..] == "" && rest == [""];
    } else {
      SplitEnds(s[1..]);
      var lines := Split(s, '\n');
      assert s[1..][|s| - 2] == s[|s| - 1];
      assert |lines| > 1 && |rest| > 1 ==> lines[|lines| - 1] == rest[|rest| - 1];
    }
  }

  /** The text of a section of one paragraph: its lines, each stripped. */
  lemma OneParagraph(p: string)
    requires Strip(p) != ""
    ensures BodyText([p]) == Join("\n", Map(Strip, Split(Strip(p), '\n')))
  {
    FlatMapOne(BodyLines, p);
    StrippedLinesJoin(Strip(p));
  }

  lemma StrippedLinesJoin(s: string)
    requires s != "" && Trimmed(s)
    ensures Trimmed(Join("\n", Map(Strip, Split(s, '\n'))))
  {
    StrippedLinesEnd(s);
    JoinEnds("\n", Map(Strip, Split(s, '\n')));
  }

  /** A summary is read back as it was exactly when neither it nor a line of it has space around it. */
  lemma SummaryIsRecoveredIff(lower: string -> string, r: Context)
    requires Lowers(lower) && NoBodyHeader(lower, r) && RawText(Paragraphs(r)).Ok? && r.summary != ""
    ensures var sections := Sections(lower, RawText(Paragraphs(r)).value);
      "professional summary" in sections &&
      (sections["professional summary"] == r.summary <==>
        Trimmed(r.summary) && forall line :: line in Split(r.summary, '\n') ==> Trimmed(line))
  {
    SectionsAreRecovered(lower, r);
    WrittenEntry(r, 0);
    SummaryText(r.summary);
  }

  lemma SummaryText(p: string)
    requires p != ""
    ensures BodyText([p]) == p <==> Trimmed(p) && forall line :: line in Split(p, '\n') ==> Trimmed(line)
  {
    if Trimmed(p) {
      OneParagraph(p);
      var lines := Split(p, '\n');
      JoinSplit(p, '\n');
      if BodyText([p]) == p {
        StripLines(lines);
        SplitUndoesJoin(Map(Strip, lines), '\n');
      }
      if forall line :: line in lines ==> Trimmed(line) {
        MapSame(Strip, lines);
      }
    } else {
      assert Trimmed(BodyText([p]));
    }
  }

  // ---------------------------------------------------------------- skills

  /** A skill as the renderer's list can carry it. */
  predicate Listable(s: string) {
    OneLine(s) && ',' !in s
  }

  ghost predicate DistinctIgnoringCase(lower: string -> string, skills: seq<string>) {
    forall i, j :: 0 <= i < j < |skills| ==> lower(skills[i]) != lower(skills[j])
  }

  lemma DistinctSnoc(lower: string -> string, skills: seq<string>, x: string)
    ensures DistinctIgnoringCase(lower, skills + [x]) <==>
      DistinctIgnoringCase(lower, skills) && lower(x) !in Lowered(lower, skills)
  {
    var all := skills + [x];
    assert forall i :: 0 <= i < |skills| ==> all[i] == skills[i];
    assert all[|skills|] == x;
  }

  lemma SnocIsSame<T>(a: seq<T>, b: seq<T>, x: T)
    requires |a| <= |b|
    ensures a != b + [x]
    ensures a + [x] == b + [x] <==> a == b
  {
    if a + [x] == b + [x] {
      assert a == (a + [x])[..|a|] && b == (b + [x])[..|a|];
    }
  }

  lemma {:induction false} UniqueIsSame(lower: string -> string, skills: seq<string>)
    ensures |Unique(lower, skills)| <= |skills|
    ensures Unique(lower, skills) == skills <==>
      DistinctIgnoringCase(lower, skills) && forall s :: s in skills ==> |s| > 1
  {
    if skills != [] {
      var n := |skills| - 1;
      var before := Unique(lower, skills[..n]);
      UniqueIsSame(lower, skills[..n]);
      TakeSnoc(skills);
      DistinctSnoc(lower, skills[..n], skills[n]);
      SnocIsSame(before, skills[..n], skills[n]);
    }
  }

  /** The pieces of the list, cut at the commas, stripped, the empty ones dropped. */
  function Pieces(s: string): seq<string> {
    NonEmpty(Map(Strip, Split(s, ',')))
  }

  lemma PiecesCat(a: string, b: string)
    ensures Pieces(a + [','] + b) == Pieces(a) + Pieces(b)
  {
    SplitCat(a, b, ',');
    MapCat(Strip, Split(a, ','), Split(b, ','));
    NonEmptyCat(Map(Strip, Split(a, ',')), Map(Strip, Split(b, ',')));
  }

  lemma OnePiece(skill: string, pad: string)
    requires Listable(skill) && (pad == "" || pad == " ")
    ensures Pieces(pad + skill) == [skill]
  {
    SplitNone(pad + skill, ',');
    PadIsStripped(skill, pad);
    assert Map(Strip, [pad + skill]) == [skill];
    NonEmptySnoc([], skill);
    CatNothing([skill]);
  }

  lemma PadIsStripped(skill: string, pad: string)
    requires OneLine(skill) && (pad == "" || pad == " ")
    ensures Strip(pad + skill) == skill
  {
    if pad == "" {
      CatNothing(skill);
    } else {
      assert (" " + skill)[1..] == skill;
      assert StripLeft(" " + skill, IsSpace) == StripLeft(skill, IsSpace) == skill;
    }
  }

  lemma {:induction false} JoinedPieces(skills: seq<string>, pad: string)
    requires skills != [] && (forall s :: s in skills ==> Listable(s)) && (pad == "" || pad == " ")
    ensures Pieces(pad + Join(", ", skills)) == skills
    decreases |skills|
  {
    assert skills == [skills[0]] + skills[1..];
    if |skills| == 1 {
      OnePiece(skills[0], pad);
    } else {
      var rest := Join(", ", skills[1..]);
      assert pad + Join(", ", skills) == (pad + skills[0]) + [','] + (" " + rest);
      PiecesCat(pad + skills[0], " " + rest);
      OnePiece(skills[0], pad);
      JoinedPieces(skills[1..], " ");
    }
  }

  lemma {:induction false} JoinLacks(sep: string, parts: seq<string>, c: char)
    requires c !in sep && forall p :: p in parts ==> c !in p
    ensures c !in Join(sep, parts)
  {
    if |parts| > 1 { JoinLacks(sep, parts[1..], c); }
  }

  lemma ListIsOneLine(skills: seq<string>)
    requires skills != [] && forall s :: s in skills ==> Listable(s)
    ensures OneLine(Join(", ", skills))
  {
    assert Listable(skills[0]) && Listable(skills[|skills| - 1]);
    JoinEnds(", ", skills);
    JoinLacks(", ", skills, '\n');
  }

  lemma ListIsSplit(skills: seq<string>)
    requires |skills| >= 2 && forall s :: s in skills ==> Listable(s)
    ensures LineSkills(Join(", ", skills)) == skills
  {
    var line := Join(", ", skills);
    ListIsOneLine(skills);
    assert line[|skills[0]|] == ',';
    assert DELIMITERS[0] == ',';
    JoinedPieces(skills, "");
    CatNothing(line);
  }

  lemma SectionIsTaken(lower: string -> string, text: string, sections: map<string, string>, line: string)
    requires "skills" in sections && sections["skills"] == line && OneLine(line)
    ensures Skills(lower, text, sections) == Unique(lower, LineSkills(line))
  {
    assert SKILL_SECTIONS[0] == "skills";
    assert FirstSection(sections, SKILL_SECTIONS) == line;
    SplitNone(line, '\n');
    FlatMapOne(LineSkills, line);
  }

  lemma SkillsSection(r: Context)
    requires r.skills != [] && OneLine(Join(", ", r.skills))
    ensures "skills" in Written(r) && Written(r)["skills"] == Join(", ", r.skills)
  {
    WrittenEntry(r, 3);
    LinesStay([Join(", ", r.skills)]);
  }

  /** What the extraction reads is the skills section alone. */
  lemma SkillsLine(lower: string -> string, r: Context)
    requires Lowers(lower) && NoBodyHeader(lower, r) && RawText(Paragraphs(r)).Ok?
    requires r.skills != [] && OneLine(Join(", ", r.skills))
    ensures var text := RawText(Paragraphs(r)).value;
      Skills(lower, text, Sections(lower, text)) == Unique(lower, LineSkills(Join(", ", r.skills)))
  {
    SectionsAreRecovered(lower, r);
    SkillsSection(r);
    SectionIsTaken(lower, RawText(Paragraphs(r)).value, Written(r), Join(", ", r.skills));
  }

  // ---------------------------------------------------------------- what can be read at all

  lemma {:induction false} NonEmptyHas(parts: seq<string>, x: string)
    ensures x in NonEmpty(parts) ==> x in parts && x != ""
  {
    if parts != [] { NonEmptyHas(parts[..|parts| - 1], x); }
  }

  lemma {:induction false} FlatMapHas<A, B>(f: A -> seq<B>, xs: seq<A>, y: B) returns (x: A)
    requires y in FlatMap(f, xs)
    ensures x in xs && y in f(x)
  {
    var n := |xs| - 1;
    if y in f(xs[n]) { x := xs[n]; } else { x := FlatMapHas(f, xs[..n], y); }
  }

  lemma {:induction false} SplitKeepsAbsent(s: string, sep: char, c: char)
    requires c !in s
    ensures forall part :: part in Split(s, sep) ==> c !in part
  {
    if s != "" { SplitKeepsAbsent(s[1..], sep, c); }
  }

  /** A skill read from a line cut at a delimiter: a trimmed piece without it. */
  lemma PieceRead(line: string, d: char, x: string)
    requires x in NonEmpty(Map(Strip, Split(line, d)))
    ensures x != "" && Trimmed(x) && d !in x && forall c :: c !in line ==> c !in x
  {
    NonEmptyHas(Map(Strip, Split(line, d)), x);
    var k :| 0 <= k < |Split(line, d)| && x == Strip(Split(line, d)[k]);
    var part := Split(line, d)[k];
    JoinSplit(line, d);
    StripKeepsAbsent(part, d);
    forall c | c !in line
      ensures c !in x
    {
      SplitKeepsAbsent(line, d, c);
      StripKeepsAbsent(part, c);
    }
  }

  /** A skill read from a line is listable, and free of the delimiter the line was cut at. */
  lemma LineSkillsAre(untrimmed: string, x: string)
    requires '\n' !in untrimmed && x in LineSkills(untrimmed)
    ensures Listable(x)
    ensures FirstDelimiter(Strip(untrimmed), DELIMITERS).Some? ==>
      FirstDelimiter(Strip(untrimmed), DELIMITERS).value !in x
  {
    var line := Strip(untrimmed);
    StripKeepsAbsent(untrimmed, '\n');
    assert DELIMITERS[0] == ',';
    match FirstDelimiter(line, DELIMITERS)
    case Some(d) => PieceRead(line, d, x);
    case None =>
      var left := StripLeft(line, IsBullet);
      StripLeftDrops(line, IsBullet);
      StripKeepsAbsent(left, '\n');
      StripKeepsAbsent(left, ',');
  }

  lemma {:induction false} UniqueHas(lower: string -> string, skills: seq<string>)
    ensures DistinctIgnoringCase(lower, Unique(lower, skills))
    ensures forall x :: x in Unique(lower, skills) ==> x in skills && |x| > 1
  {
    if skills != [] { UniqueHas(lower, skills[..|skills| - 1]); }
  }

  /** Whatever the text, the skills read are listable, differ ignoring case and are longer than one character. */
  lemma SkillsReadAreListable(lower: string -> string, text: string, sections: map<string, string>)
    ensures var skills := Skills(lower, text, sections);
      DistinctIgnoringCase(lower, skills) && forall x :: x in skills ==> Listable(x) && |x| > 1
  {
    var found := FirstSection(sections, SKILL_SECTIONS);
    var lines := Split(if found == "" then text else found, '\n');
    JoinSplit(if found == "" then text else found, '\n');
    UniqueHas(lower, FlatMap(LineSkills, lines));
    forall x | x in Skills(lower, text, sections)
      ensures Listable(x)
    {
      var line := FlatMapHas(LineSkills, lines, x);
      LineSkillsAre(line, x);
    }
  }

  lemma ListableAreRecovered(lower: string -> string, r: Context)
    requires Lowers(lower) && NoBodyHeader(lower, r) && RawText(Paragraphs(r)).Ok?
    requires |r.skills| >= 2 && forall s :: s in r.skills ==> Listable(s)
    ensures var text := RawText(Paragraphs(r)).value;
      Skills(lower, text, Sections(lower, text)) == r.skills <==>
        DistinctIgnoringCase(lower, r.skills) && forall s :: s in r.skills ==> |s| > 1
  {
    ListIsOneLine(r.skills);
    SkillsLine(lower, r);
    ListIsSplit(r.skills);
    UniqueIsSame(lower, r.skills);
  }

  /** Two or more skills come back in order exactly when they differ ignoring case and each is trimmed, longer
      than one character and without a comma or a line break. */
  lemma SkillsAreRecoveredIff(lower: string -> string, r: Context)
    requires Lowers(lower) && NoBodyHeader(lower, r) && RawText(Paragraphs(r)).Ok? && |r.skills| >= 2
    ensures var text := RawText(Paragraphs(r)).value;
      Skills(lower, text, Sections(lower, text)) == r.skills <==>
        DistinctIgnoringCase(lower, r.skills) && forall s :: s in r.skills ==> Listable(s) && |s| > 1
  {
    var text := RawText(Paragraphs(r)).value;
    SkillsReadAreListable(lower, text, Sections(lower, text));
    if forall s :: s in r.skills ==> Listable(s) { ListableAreRecovered(lower, r); }
  }

  lemma BulletsAreCut(skill: string)
    requires OneLine(skill)
    ensures var cleaned := Strip(StripLeft(skill, IsBullet));
      |cleaned| <= |skill| && (cleaned == skill <==> !IsBullet(skill[0]))
  {
    var left := StripLeft(skill, IsBullet);
    StripLeftDrops(left, IsSpace);
    StripRightTakes(StripLeft(left, IsSpace), IsSpace);
  }

  lemma LoneLine(skill: string)
    requires OneLine(skill) && forall d :: d in DELIMITERS ==> d !in skill
    ensures LineSkills(skill) == [skill] <==> !IsBullet(skill[0]) && |skill| < 60
    ensures LineSkills(skill) == [] || exists x :: LineSkills(skill) == [x]
  {
    NoDelimiter(skill, DELIMITERS);
    BulletsAreCut(skill);
  }

  lemma PlainLoneSkill(lower: string -> string, r: Context, skill: string)
    requires Lowers(lower) && NoBodyHeader(lower, r) && RawText(Paragraphs(r)).Ok?
    requires r.skills == [skill] && OneLine(skill) && forall d :: d in DELIMITERS ==> d !in skill
    ensures var text := RawText(Paragraphs(r)).value;
      Skills(lower, text, Sections(lower, text)) == r.skills <==> !IsBullet(skill[0]) && 1 < |skill| < 60
  {
    SkillsLine(lower, r);
    LoneLine(skill);
    UniqueOne(lower, skill);
    if x :| LineSkills(skill) == [x] { UniqueOne(lower, x); }
  }

  /** A skill that holds a delimiter is cut at it, and never read whole. */
  lemma DelimitedIsCut(lower: string -> string, skill: string)
    requires OneLine(skill) && exists d :: d in DELIMITERS && d in skill
    ensures Unique(lower, LineSkills(skill)) != [skill]
  {
    HasDelimiter(skill, DELIMITERS);
    UniqueHas(lower, LineSkills(skill));
    if Unique(lower, LineSkills(skill)) == [skill] {
      assert skill in Unique(lower, LineSkills(skill));
      LineSkillsAre(skill, skill);
      assert false;
    }
  }

  lemma {:induction false} HasDelimiter(line: string, ds: seq<char>)
    requires exists d :: d in ds && d in line
    ensures FirstDelimiter(line, ds).Some? && FirstDelimiter(line, ds).value in line
  {
    if ds[0] !in line {
      var d :| d in ds && d in line;
      assert d in ds[1..];
      HasDelimiter(line, ds[1..]);
    }
  }

  lemma LoneSkillIff(lower: string -> string, r: Context, skill: string)
    requires Lowers(lower) && NoBodyHeader(lower, r) && RawText(Paragraphs(r)).Ok? && r.skills == [skill]
    ensures var text := RawText(Paragraphs(r)).value;
      Skills(lower, text, Sections(lower, text)) == r.skills <==>
        OneLine(skill) && (forall d :: d in DELIMITERS ==> d !in skill) && !IsBullet(skill[0]) && 1 < |skill| < 60
  {
    var text := RawText(Paragraphs(r)).value;
    SkillsReadAreListable(lower, text, Sections(lower, text));
    assert skill in r.skills;
    if OneLine(skill) {
      if forall d :: d in DELIMITERS ==> d !in skill {
        PlainLoneSkill(lower, r, skill);
      } else {
        SkillsLine(lower, r);
        DelimitedIsCut(lower, skill);
      }
    }
  }

  /** A trimmed line without a bullet before it or a delimiter in it, longer than one character and shorter than
      sixty. */
  predicate ReadsAsOne(skill: string) {
    OneLine(skill) && skill[0] != '-' && skill[0] != '*' && 1 < |skill| < 60 &&
    ',' !in skill && '|' !in skill && ';' !in skill &&
    '\U{2022}' !in skill && '\U{2023}' !in skill && '\U{25e6}' !in skill
  }

  lemma ReadsAsOneIff(skill: string)
    ensures ReadsAsOne(skill) <==>
      OneLine(skill) && (forall d :: d in DELIMITERS ==> d !in skill) && !IsBullet(skill[0]) && 1 < |skill| < 60
  {
    assert DELIMITERS[0] == ',' && DELIMITERS[1] == '|' && DELIMITERS[2] == ';';
    assert DELIMITERS[3] == '\U{2022}' && DELIMITERS[4] == '\U{2023}' && DELIMITERS[5] == '\U{25e6}';
  }

  /** A single skill comes back exactly when it is such a line. */
  lemma LoneSkillIsRecoveredIff(lower: string -> string, r: Context, skill: string)
    requires Lowers(lower) && NoBodyHeader(lower, r) && RawText(Paragraphs(r)).Ok? && r.skills == [skill]
    ensures var text := RawText(Paragraphs(r)).value;
      Skills(lower, text, Sections(lower, text)) == r.skills <==> ReadsAsOne(skill)
  {
    LoneSkillIff(lower, r, skill);
    ReadsAsOneIff(skill);
  }

  lemma {:induction false} NoDelimiter(line: string, ds: seq<char>)
    requires forall d :: d in ds ==> d !in line
    ensures FirstDelimiter(line, ds) == None
  {
    if ds != [] {
      assert ds[0] in ds;
      NoDelimiter(line, ds[1..]);
    }
  }

  lemma UniqueOne(lower: string -> string, skill: string)
    ensures Unique(lower, [skill]) == if |skill| > 1 then [skill] else []
    ensures Unique(lower, []) == []
  {
    assert [skill][..0] == [];
  }
}
