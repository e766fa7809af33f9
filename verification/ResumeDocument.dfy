/** What a rendered resume holds, line by line, and how skills are read from a text. */
module ResumeDocument {
  import opened Wrappers
  import opened Resume
  import opened Text

  // ---------------------------------------------------------------- the document

  /** The title, then the place behind a dash and the dates in parentheses, where there are any. */
  function TitleLine(title: string, place: string, when: string): string {
    title + (if place == "" then "" else " \U{2014} " + place) + (if when == "" then "" else "  (" + when + ")")
  }

  /** The lines that hold more than blanks, without the blanks around them. */
  function Filled(lines: seq<string>): seq<string> {
    if lines == [] then [] else (if Strip(lines[0]) == "" then [] else [Strip(lines[0])]) + Filled(lines[1..])
  }

  function Given(value: string): seq<string> {
    if value == "" then [] else [value]
  }

  function ContactLine(r: Context): seq<string> {
    var parts := Given(r.email) + Given(r.phone) + Given(r.location) + Given(r.linkedin);
    if parts == [] then [] else [Join(" | ", parts)]
  }

  function JobLines(jobs: seq<Job>): seq<string> {
    if jobs == [] then []
    else
      [TitleLine(jobs[0].title, jobs[0].company, jobs[0].duration)] + Filled(Split(jobs[0].description, '\n')) +
      JobLines(jobs[1..])
  }

  function DegreeLines(degrees: seq<Degree>): seq<string> {
    if degrees == [] then []
    else [TitleLine(degrees[0].degree, degrees[0].institution, degrees[0].year)] + DegreeLines(degrees[1..])
  }

  function Section(heading: string, lines: seq<string>, wanted: bool): seq<string> {
    if wanted then [heading] + lines else []
  }

  function DocumentLines(r: Context): seq<string> {
    Given(r.name) + ContactLine(r) +
    Section("Professional Summary", [r.summary], r.summary != "") +
    Section("Experience", JobLines(r.experience), r.experience != []) +
    Section("Education", DegreeLines(r.education), r.education != []) +
    Section("Skills", [Join(", ", r.skills)], r.skills != []) +
    Section("Certifications", r.certifications, r.certifications != [])
  }

  lemma NothingBehind<T>(a: seq<T>)
    ensures a + [] == a
  {
  }

  lemma TitledIsTheLine(title: string, place: string, when: string)
    ensures Titled(title, place, when) == TitleLine(title, place, when)
  {
    var behind := if place == "" then "" else " \U{2014} " + place;
    NothingBehind(title);
    CatAssociates(title, " \U{2014} ", place);
    NothingBehind(title + behind);
  }

  lemma {:induction false} FilledIs(lines: seq<string>)
    ensures NonEmpty(Map(Strip, lines)) == Filled(lines)
  {
    if lines != [] {
      var first, rest := [lines[0]], lines[1..];
      assert first + rest == lines;
      MapCat(Strip, first, rest);
      assert Map(Strip, first) == [Strip(lines[0])];
      NonEmptyCat([Strip(lines[0])], Map(Strip, rest));
      OneIsFilled(Strip(lines[0]));
      FilledIs(rest);
    }
  }

  lemma OneIsFilled(value: string)
    ensures NonEmpty([value]) == if value == "" then [] else [value]
  {
    assert [value][..0] == [];
  }

  /** Every line that holds more than blanks is among the bullets. */
  lemma {:induction false} FilledHolds(lines: seq<string>, i: nat)
    requires i < |lines| && Strip(lines[i]) != ""
    ensures Strip(lines[i]) in Filled(lines)
  {
    if i > 0 { FilledHolds(lines[1..], i - 1); }
  }

  lemma JobIsItsLines(job: Job)
    ensures JobParagraphs(job) ==
      [TitleLine(job.title, job.company, job.duration)] + Filled(Split(job.description, '\n'))
  {
    TitledIsTheLine(job.title, job.company, job.duration);
    FilledIs(Split(job.description, '\n'));
  }

  lemma {:induction false} JobsAreTheirLines(jobs: seq<Job>)
    ensures FlatMap(JobParagraphs, jobs) == JobLines(jobs)
  {
    if jobs != [] {
      assert jobs[..1] + jobs[1..] == jobs;
      FlatMapCat(JobParagraphs, jobs[..1], jobs[1..]);
      assert jobs[..1] == [jobs[0]];
      FlatMapOne(JobParagraphs, jobs[0]);
      JobIsItsLines(jobs[0]);
      JobsAreTheirLines(jobs[1..]);
    }
  }

  lemma {:induction false} DegreesAreTheirLines(degrees: seq<Degree>)
    ensures Map(DegreeParagraph, degrees) == DegreeLines(degrees)
  {
    if degrees != [] {
      var d := degrees[0];
      assert degrees[..1] + degrees[1..] == degrees;
      MapCat(DegreeParagraph, degrees[..1], degrees[1..]);
      assert Map(DegreeParagraph, degrees[..1]) == [DegreeParagraph(d)];
      TitledIsTheLine(d.degree, d.institution, d.year);
      DegreesAreTheirLines(degrees[1..]);
    }
  }

  lemma OneMoreGiven(values: seq<string>, value: string)
    ensures NonEmpty(values + [value]) == NonEmpty(values) + Given(value)
  {
    NonEmptySnoc(values, value);
    NothingBehind(NonEmpty(values));
  }

  lemma ContactIsGiven(r: Context)
    ensures Contact(r) == Given(r.email) + Given(r.phone) + Given(r.location) + Given(r.linkedin)
  {
    assert [r.email, r.phone, r.location, r.linkedin] == [] + [r.email] + [r.phone] + [r.location] + [r.linkedin];
    OneMoreGiven([] + [r.email] + [r.phone] + [r.location], r.linkedin);
    OneMoreGiven([] + [r.email] + [r.phone], r.location);
    OneMoreGiven([] + [r.email], r.phone);
    OneMoreGiven([], r.email);
    CatNothing(Given(r.email));
  }

  lemma HeaderIsGiven(r: Context)
    ensures Header(r) == Given(r.name) + ContactLine(r)
  {
    ContactIsGiven(r);
  }

  lemma SummaryIsItsSection(r: Context)
    ensures FlatMap(BlockParagraphs, SummaryBlock(r)) == Section("Professional Summary", [r.summary], r.summary != "")
  {
    BlockIfParagraphs(r.summary != "", "Professional Summary", [r.summary]);
  }

  lemma ExperienceIsItsSection(r: Context)
    ensures FlatMap(BlockParagraphs, ExperienceBlock(r)) ==
      Section("Experience", JobLines(r.experience), r.experience != [])
  {
    JobsAreTheirLines(r.experience);
    BlockIfParagraphs(r.experience != [], "Experience", JobLines(r.experience));
  }

  lemma EducationIsItsSection(r: Context)
    ensures FlatMap(BlockParagraphs, EducationBlock(r)) ==
      Section("Education", DegreeLines(r.education), r.education != [])
  {
    DegreesAreTheirLines(r.education);
    BlockIfParagraphs(r.education != [], "Education", DegreeLines(r.education));
  }

  lemma SkillsAreTheirSection(r: Context)
    ensures FlatMap(BlockParagraphs, SkillsBlock(r)) == Section("Skills", [Join(", ", r.skills)], r.skills != [])
  {
    BlockIfParagraphs(r.skills != [], "Skills", [Join(", ", r.skills)]);
  }

  lemma CertificationsAreTheirSection(r: Context)
    ensures FlatMap(BlockParagraphs, CertificationsBlock(r)) ==
      Section("Certifications", r.certifications, r.certifications != [])
  {
    BlockIfParagraphs(r.certifications != [], "Certifications", r.certifications);
  }

  /** The document holds exactly these lines, in this order: the name, the contact values present, and each
      section that has content, a job with its title line and every line of its description that is not blank. */
  lemma DocumentIsItsLines(r: Context)
    ensures Paragraphs(r) == DocumentLines(r)
  {
    InOrder(r);
    HeaderIsGiven(r);
    SummaryIsItsSection(r);
    ExperienceIsItsSection(r);
    EducationIsItsSection(r);
    SkillsAreTheirSection(r);
    CertificationsAreTheirSection(r);
  }

  // ---------------------------------------------------------------- reading skills

  /** A line is cut at the first of the six delimiters, in this order, that it holds. */
  lemma LineIsCutAt(untrimmed: string)
    ensures var line := Strip(untrimmed); var skills := LineSkills(untrimmed);
      && (',' in line ==> skills == Filled(Split(line, ',')))
      && (',' !in line && '|' in line ==> skills == Filled(Split(line, '|')))
      && (',' !in line && '|' !in line && ';' in line ==> skills == Filled(Split(line, ';')))
      && (',' !in line && '|' !in line && ';' !in line ==>
            && ('\U{2022}' in line ==> skills == Filled(Split(line, '\U{2022}')))
            && ('\U{2022}' !in line && '\U{2023}' in line ==> skills == Filled(Split(line, '\U{2023}')))
            && ('\U{2022}' !in line && '\U{2023}' !in line && '\U{25e6}' in line ==>
                  skills == Filled(Split(line, '\U{25e6}'))))
  {
    var line := Strip(untrimmed);
    FirstOfSix(line);
    var d := FirstDelimiter(line, DELIMITERS);
    if d.Some? { FilledIs(Split(line, d.value)); }
  }

  lemma FirstOr(line: string, d: char, ds: seq<char>)
    ensures FirstDelimiter(line, [d] + ds) == if d in line then Some(d) else FirstDelimiter(line, ds)
  {
    assert ([d] + ds)[1..] == ds;
  }

  lemma FirstOfSix(line: string)
    ensures FirstDelimiter(line, DELIMITERS) ==
      if ',' in line then Some(',') else if '|' in line then Some('|') else if ';' in line then Some(';')
      else if '\U{2022}' in line then Some('\U{2022}') else if '\U{2023}' in line then Some('\U{2023}')
      else if '\U{25e6}' in line then Some('\U{25e6}') else None
  {
    var d6: seq<char> := ['\U{25e6}'] + [];
    var d5 := ['\U{2023}'] + d6;
    var d4 := ['\U{2022}'] + d5;
    var d3 := [';'] + d4;
    var d2 := ['|'] + d3;
    assert DELIMITERS == [','] + d2;
    FirstOr(line, ',', d2);
    FirstOr(line, '|', d3);
    FirstOr(line, ';', d4);
    FirstOr(line, '\U{2022}', d5);
    FirstOr(line, '\U{2023}', d6);
    FirstOr(line, '\U{25e6}', []);
  }

  /** A line without a delimiter is one skill, without the bullets before it, if that leaves 1 to 59 characters. */
  lemma LineIsOneSkill(untrimmed: string) returns (bullets: string)
    requires forall d :: d in Strip(untrimmed) ==>
      d != ',' && d != '|' && d != ';' && d != '\U{2022}' && d != '\U{2023}' && d != '\U{25e6}'
    ensures bullets <= Strip(untrimmed) && forall c :: c in bullets ==> c == '-' || c == '*' || c == ' '
    ensures var rest := Strip(untrimmed)[|bullets|..];
      && (rest != "" ==> rest[0] != '-' && rest[0] != '*' && rest[0] != ' ')
      && LineSkills(untrimmed) == if 1 <= |Strip(rest)| < 60 then [Strip(rest)] else []
  {
    var line := Strip(untrimmed);
    FirstOfSix(line);
    bullets := BulletsBefore(line);
  }

  lemma {:induction false} BulletsBefore(line: string) returns (bullets: string)
    ensures line == bullets + StripLeft(line, IsBullet)
    ensures forall c :: c in bullets ==> c == '-' || c == '*' || c == '\U{2022}' || c == '\U{2023}' || c == ' '
    ensures var rest := StripLeft(line, IsBullet); rest != "" ==> rest[0] != '-' && rest[0] != '*' && rest[0] != ' '
  {
    bullets := "";
    if line != "" && IsBullet(line[0]) {
      var rest := BulletsBefore(line[1..]);
      bullets := [line[0]] + rest;
    }
  }

  /** The text the skills are read from: what stands under the first of these headings there is, or the whole
      text if nothing does. */
  function SkillsSource(text: string, sections: map<string, string>): string {
    var found :=
      if "skills" in sections then sections["skills"]
      else if "technical skills" in sections then sections["technical skills"]
      else if "core competencies" in sections then sections["core competencies"]
      else if "competencies" in sections then sections["competencies"]
      else "";
    if found == "" then text else found
  }

  lemma SkillsSectionIs(text: string, sections: map<string, string>)
    ensures var found := FirstSection(sections, SKILL_SECTIONS);
      SkillsSource(text, sections) == if found == "" then text else found
  {
    var k4: seq<string> := ["competencies"] + [];
    var k3 := ["core competencies"] + k4;
    var k2 := ["technical skills"] + k3;
    assert SKILL_SECTIONS == ["skills"] + k2;
    SectionOr(sections, "skills", k2);
    SectionOr(sections, "technical skills", k3);
    SectionOr(sections, "core competencies", k4);
    SectionOr(sections, "competencies", []);
  }

  /** The skills are read line by line from there. */
  lemma SkillsAreReadFrom(lower: string -> string, text: string, sections: map<string, string>)
    ensures Skills(lower, text, sections) ==
      Unique(lower, FlatMap(LineSkills, Split(SkillsSource(text, sections), '\n')))
  {
    SkillsSectionIs(text, sections);
  }

  lemma SectionOr(sections: map<string, string>, key: string, keys: seq<string>)
    ensures FirstSection(sections, [key] + keys) ==
      if key in sections then sections[key] else FirstSection(sections, keys)
  {
    assert ([key] + keys)[1..] == keys;
  }

  /** The first skill of the text that reads like this one ignoring case, one-character skills left out. */
  predicate IsFirstOfItsKind(lower: string -> string, skills: seq<string>, i: nat) {
    i < |skills| && |skills[i]| > 1 &&
    forall j :: 0 <= j < i && |skills[j]| > 1 ==> lower(skills[j]) != lower(skills[i])
  }

  /** What the places of the kept skills are. */
  ghost predicate Kept(lower: string -> string, skills: seq<string>, at: seq<nat>) {
    |at| == |Unique(lower, skills)| &&
    (forall k :: 0 <= k < |at| ==>
      IsFirstOfItsKind(lower, skills, at[k]) && Unique(lower, skills)[k] == skills[at[k]]) &&
    (forall k, l :: 0 <= k < l < |at| ==> at[k] < at[l]) &&
    (forall i: nat :: IsFirstOfItsKind(lower, skills, i) ==> i in at)
  }

  ghost predicate AllSeen(lower: string -> string, skills: seq<string>) {
    forall i :: 0 <= i < |skills| && |skills[i]| > 1 ==> lower(skills[i]) in Lowered(lower, Unique(lower, skills))
  }

  lemma SameKindBefore(lower: string -> string, skills: seq<string>, n: nat, i: nat)
    requires i < n <= |skills|
    ensures IsFirstOfItsKind(lower, skills, i) <==> IsFirstOfItsKind(lower, skills[..n], i)
  {
  }

  lemma NewKindIff(lower: string -> string, skills: seq<string>, at: seq<nat>)
    requires skills != [] && var n := |skills| - 1; Kept(lower, skills[..n], at) && AllSeen(lower, skills[..n])
    ensures var n := |skills| - 1; IsFirstOfItsKind(lower, skills, n) <==>
      |skills[n]| > 1 && lower(skills[n]) !in Lowered(lower, Unique(lower, skills[..n]))
  {
    var n := |skills| - 1;
    var kept := Unique(lower, skills[..n]);
    forall j | 0 <= j < n && |skills[j]| > 1
      ensures lower(skills[j]) in Lowered(lower, kept)
    {
      assert skills[..n][j] == skills[j];
    }
    if lower(skills[n]) in Lowered(lower, kept) {
      var k :| 0 <= k < |kept| && lower(kept[k]) == lower(skills[n]);
      assert IsFirstOfItsKind(lower, skills[..n], at[k]);
    }
  }

  lemma SeenGrows(lower: string -> string, skills: seq<string>)
    requires skills != [] && AllSeen(lower, skills[..|skills| - 1])
    ensures AllSeen(lower, skills)
  {
    var n := |skills| - 1;
    var kept, all := Unique(lower, skills[..n]), Unique(lower, skills);
    forall i | 0 <= i < |skills| && |skills[i]| > 1
      ensures lower(skills[i]) in Lowered(lower, all)
    {
      if i < n {
        assert skills[..n][i] == skills[i];
        var x :| x in kept && lower(x) == lower(skills[i]);
        assert x in all;
      } else if lower(skills[n]) !in Lowered(lower, kept) {
        assert skills[n] in all;
      } else {
        var x :| x in kept && lower(x) == lower(skills[n]);
        assert x in all;
      }
    }
  }

  /** Of skills that differ only in case the first is kept, in its place. */
  lemma {:induction false} FirstOfAKindIsKept(lower: string -> string, skills: seq<string>) returns (at: seq<nat>)
    ensures Kept(lower, skills, at) && AllSeen(lower, skills)
  {
    if skills == [] {
      at := [];
    } else {
      var n := |skills| - 1;
      var before := FirstOfAKindIsKept(lower, skills[..n]);
      SeenGrows(lower, skills);
      NewKindIff(lower, skills, before);
      at := OneMoreKept(lower, skills, before);
    }
  }

  lemma EarlierStayKept(lower: string -> string, skills: seq<string>, before: seq<nat>, k: nat)
    requires skills != [] && Kept(lower, skills[..|skills| - 1], before) && k < |before|
    ensures before[k] < |skills| - 1 && IsFirstOfItsKind(lower, skills, before[k])
    ensures Unique(lower, skills[..|skills| - 1])[k] == skills[before[k]]
  {
    SameKindBefore(lower, skills, |skills| - 1, before[k]);
  }

  lemma NoneIsMissed(lower: string -> string, skills: seq<string>, before: seq<nat>, i: nat)
    requires skills != [] && Kept(lower, skills[..|skills| - 1], before) && IsFirstOfItsKind(lower, skills, i)
    ensures i in before || i == |skills| - 1
  {
    if i < |skills| - 1 { SameKindBefore(lower, skills, |skills| - 1, i); }
  }

  lemma OneMoreKept(lower: string -> string, skills: seq<string>, before: seq<nat>) returns (at: seq<nat>)
    requires skills != [] && Kept(lower, skills[..|skills| - 1], before)
    requires var n := |skills| - 1; IsFirstOfItsKind(lower, skills, n) <==>
      |skills[n]| > 1 && lower(skills[n]) !in Lowered(lower, Unique(lower, skills[..n]))
    ensures Kept(lower, skills, at)
  {
    var n := |skills| - 1;
    forall k | 0 <= k < |before|
      ensures before[k] < n && IsFirstOfItsKind(lower, skills, before[k])
      ensures Unique(lower, skills[..n])[k] == skills[before[k]]
    {
      EarlierStayKept(lower, skills, before, k);
    }
    forall i: nat | IsFirstOfItsKind(lower, skills, i)
      ensures i in before || i == n
    {
      NoneIsMissed(lower, skills, before, i);
    }
    if IsFirstOfItsKind(lower, skills, n) {
      at := before + [n];
      assert at[|before|] == n;
    } else {
      at := before;
    }
  }

  function Colons(n: nat): string {
    seq(n, _ => ':')
  }

  lemma {:induction false} ColonsGo(h: string, n: nat)
    requires h == "" || h[|h| - 1] != ':'
    ensures StripRight(h + Colons(n), c => c == ':') == h
  {
    if n == 0 {
      assert h + Colons(0) == h;
    } else {
      assert (h + Colons(n))[..|h| + n - 1] == h + Colons(n - 1);
      ColonsGo(h, n - 1);
    }
  }

  /** A line is a known heading whatever its case, the blanks around it and the colons behind it. */
  lemma HeadingIsKnown(lower: string -> string, line: string, h: string, n: nat)
    requires h in SECTION_HEADERS && (h == "" || h[|h| - 1] != ':') && lower(Strip(line)) == h + Colons(n)
    ensures IsHeader(lower, line) && Normalized(lower, line) == h
  {
    ColonsGo(h, n);
  }
}
