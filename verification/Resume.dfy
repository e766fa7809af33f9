/** The resume document: written as a list of paragraphs, read back as sections and skills. */
module Resume {
  import opened Wrappers
  import opened Text

  // Absent and empty fields are written alike, so both are the empty string or list here.
  datatype Job = Job(title: string, company: string, duration: string, description: string)
  datatype Degree = Degree(degree: string, institution: string, year: string)
  datatype Context = Context(
    name: string, email: string, phone: string, location: string, linkedin: string, summary: string,
    experience: seq<Job>, education: seq<Degree>, skills: seq<string>, certifications: seq<string>)

  const SECTION_HEADERS: seq<string> := [
    "summary", "objective", "professional summary", "profile",
    "experience", "work experience", "professional experience", "employment",
    "education", "academic background",
    "skills", "technical skills", "core competencies", "competencies",
    "certifications", "certificates", "licenses",
    "projects", "personal projects", "key projects",
    "publications", "awards", "honors",
    "volunteer", "volunteering", "community involvement",
    "languages", "interests", "references"]

  const SKILL_SECTIONS: seq<string> := ["skills", "technical skills", "core competencies", "competencies"]
  const DELIMITERS: seq<char> := [',', '|', ';', '\U{2022}', '\U{2023}', '\U{25e6}']

  // ---------------------------------------------------------------- what is written

  /** A heading of level one and the paragraphs under it. */
  datatype Block = Block(heading: string, body: seq<string>)

  function Titled(title: string, place: string, when: string): string {
    var line := if place != "" then title + " \U{2014} " + place else title;
    if when != "" then line + ("  (" + when + ")") else line
  }

  function Bullets(description: string): seq<string> {
    NonEmpty(Map(Strip, Split(description, '\n')))
  }

  function JobParagraphs(job: Job): seq<string> {
    [Titled(job.title, job.company, job.duration)] + Bullets(job.description)
  }

  function DegreeParagraph(d: Degree): string {
    Titled(d.degree, d.institution, d.year)
  }

  function Contact(r: Context): seq<string> {
    NonEmpty([r.email, r.phone, r.location, r.linkedin])
  }

  function Header(r: Context): seq<string> {
    (if r.name != "" then [r.name] else []) +
    (if Contact(r) != [] then [Join(" | ", Contact(r))] else [])
  }

  function BlockIf(wanted: bool, heading: string, body: seq<string>): seq<Block> {
    if wanted then [Block(heading, body)] else []
  }

  function SummaryBlock(r: Context): seq<Block> {
    BlockIf(r.summary != "", "Professional Summary", [r.summary])
  }

  function ExperienceBlock(r: Context): seq<Block> {
    BlockIf(r.experience != [], "Experience", FlatMap(JobParagraphs, r.experience))
  }

  function EducationBlock(r: Context): seq<Block> {
    BlockIf(r.education != [], "Education", Map(DegreeParagraph, r.education))
  }

  function SkillsBlock(r: Context): seq<Block> {
    BlockIf(r.skills != [], "Skills", [Join(", ", r.skills)])
  }

  function CertificationsBlock(r: Context): seq<Block> {
    BlockIf(r.certifications != [], "Certifications", r.certifications)
  }

  function Blocks(r: Context): seq<Block> {
    SummaryBlock(r) + ExperienceBlock(r) + EducationBlock(r) + SkillsBlock(r) + CertificationsBlock(r)
  }

  function BlockParagraphs(b: Block): seq<string> {
    [b.heading] + b.body
  }

  /** The whole document: the header lines, then each section that has something to say. */
  function Paragraphs(r: Context): seq<string> {
    Header(r) + FlatMap(BlockParagraphs, Blocks(r))
  }

  class Document {
    var paragraphs: seq<string>

    constructor ()
      ensures paragraphs == []
    {
      paragraphs := [];
    }

    method AddParagraph(text: string)
      modifies this
      ensures paragraphs == old(paragraphs) + [text]
    {
      paragraphs := paragraphs + [text];
    }
  }

  method AddHeader(doc: Document, r: Context)
    modifies doc
    ensures doc.paragraphs == old(doc.paragraphs) + Header(r)
  {
    if r.name != "" {
      doc.AddParagraph(r.name);
    }
    var values := [r.email, r.phone, r.location, r.linkedin];
    var parts: seq<string> := [];
    for k := 0 to |values|
      invariant parts == NonEmpty(values[..k])
      invariant doc.paragraphs == old(doc.paragraphs) + if r.name != "" then [r.name] else []
    {
      assert values[..k + 1][..k] == values[..k];
      if values[k] != "" {
        parts := parts + [values[k]];
      }
    }
    assert values[..|values|] == values;
    if parts != [] {
      doc.AddParagraph(Join(" | ", parts));
    }
  }

  /** A bold line, and the dates in a second run. */
  method AddTitled(doc: Document, title: string, place: string, when: string)
    modifies doc
    ensures doc.paragraphs == old(doc.paragraphs) + [Titled(title, place, when)]
  {
    var line := title;
    if place != "" {
      line := title + " \U{2014} " + place;
    }
    if when != "" {
      line := line + ("  (" + when + ")");
    }
    doc.AddParagraph(line);
  }

  /** The bullet a line of the description becomes, if it is not blank. */
  function Bullet(line: string): seq<string> {
    if Strip(line) == "" then [] else [Strip(line)]
  }

  method AddBullet(doc: Document, line: string)
    modifies doc
    ensures doc.paragraphs == old(doc.paragraphs) + Bullet(line)
  {
    var bullet := Strip(line);
    if bullet != "" {
      doc.AddParagraph(bullet);
    }
  }

  lemma OneMoreBullet(lines: seq<string>, k: nat)
    requires k < |lines|
    ensures NonEmpty(Map(Strip, lines[..k + 1])) ==
      NonEmpty(Map(Strip, lines[..k])) + Bullet(lines[k])
  {
    assert Map(Strip, lines[..k + 1])[..k] == Map(Strip, lines[..k]);
  }

  lemma NoBullets()
    ensures Bullets("") == []
  {
    assert Map(Strip, Split("", '\n')) == [""];
    assert [""][..0] == [];
  }

  method AddBullets(doc: Document, description: string)
    modifies doc
    ensures doc.paragraphs == old(doc.paragraphs) + Bullets(description)
  {
    if description == "" {
      NoBullets();
      return;
    }
    var lines := Split(description, '\n');
    for k := 0 to |lines|
      invariant doc.paragraphs == old(doc.paragraphs) + NonEmpty(Map(Strip, lines[..k]))
    {
      OneMoreBullet(lines, k);
      CatAssociates(old(doc.paragraphs), NonEmpty(Map(Strip, lines[..k])), Bullet(lines[k]));
      AddBullet(doc, lines[k]);
    }
    assert lines[..|lines|] == lines;
  }

  lemma OneMoreJob(jobs: seq<Job>, k: nat)
    requires k < |jobs|
    ensures FlatMap(JobParagraphs, jobs[..k + 1]) == FlatMap(JobParagraphs, jobs[..k]) + JobParagraphs(jobs[k])
  {
    assert jobs[..k + 1][..k] == jobs[..k];
  }

  method AddJob(doc: Document, job: Job)
    modifies doc
    ensures doc.paragraphs == old(doc.paragraphs) + JobParagraphs(job)
  {
    CatAssociates(doc.paragraphs, [Titled(job.title, job.company, job.duration)], Bullets(job.description));
    AddTitled(doc, job.title, job.company, job.duration);
    AddBullets(doc, job.description);
  }

  method AddJobs(doc: Document, jobs: seq<Job>)
    modifies doc
    ensures doc.paragraphs == old(doc.paragraphs) + FlatMap(JobParagraphs, jobs)
  {
    for k := 0 to |jobs|
      invariant doc.paragraphs == old(doc.paragraphs) + FlatMap(JobParagraphs, jobs[..k])
    {
      OneMoreJob(jobs, k);
      CatAssociates(old(doc.paragraphs), FlatMap(JobParagraphs, jobs[..k]), JobParagraphs(jobs[k]));
      AddJob(doc, jobs[k]);
    }
    assert jobs[..|jobs|] == jobs;
  }

  method AddDegrees(doc: Document, degrees: seq<Degree>)
    modifies doc
    ensures doc.paragraphs == old(doc.paragraphs) + Map(DegreeParagraph, degrees)
  {
    for k := 0 to |degrees|
      invariant doc.paragraphs == old(doc.paragraphs) + Map(DegreeParagraph, degrees[..k])
    {
      assert Map(DegreeParagraph, degrees[..k + 1]) ==
        Map(DegreeParagraph, degrees[..k]) + [DegreeParagraph(degrees[k])];
      AddTitled(doc, degrees[k].degree, degrees[k].institution, degrees[k].year);
    }
    assert degrees[..|degrees|] == degrees;
  }

  lemma BlockIfParagraphs(wanted: bool, heading: string, body: seq<string>)
    ensures FlatMap(BlockParagraphs, BlockIf(wanted, heading, body)) == if wanted then [heading] + body else []
  {
    if wanted {
      FlatMapOne(BlockParagraphs, Block(heading, body));
    }
  }

  lemma FiveBlocks(a: seq<Block>, b: seq<Block>, c: seq<Block>, d: seq<Block>, e: seq<Block>)
    ensures FlatMap(BlockParagraphs, a + b + c + d + e) ==
      FlatMap(BlockParagraphs, a) + FlatMap(BlockParagraphs, b) + FlatMap(BlockParagraphs, c) +
      FlatMap(BlockParagraphs, d) + FlatMap(BlockParagraphs, e)
  {
    FlatMapCat(BlockParagraphs, a + b + c + d, e);
    FlatMapCat(BlockParagraphs, a + b + c, d);
    FlatMapCat(BlockParagraphs, a + b, c);
    FlatMapCat(BlockParagraphs, a, b);
  }

  lemma CatSix<T>(h: seq<T>, a: seq<T>, b: seq<T>, c: seq<T>, d: seq<T>, e: seq<T>)
    ensures h + (a + b + c + d + e) == h + a + b + c + d + e
  {
  }

  lemma InOrder(r: Context)
    ensures Paragraphs(r) == Header(r) + FlatMap(BlockParagraphs, SummaryBlock(r)) +
      FlatMap(BlockParagraphs, ExperienceBlock(r)) + FlatMap(BlockParagraphs, EducationBlock(r)) +
      FlatMap(BlockParagraphs, SkillsBlock(r)) + FlatMap(BlockParagraphs, CertificationsBlock(r))
  {
    FiveBlocks(SummaryBlock(r), ExperienceBlock(r), EducationBlock(r), SkillsBlock(r), CertificationsBlock(r));
    CatSix(Header(r), FlatMap(BlockParagraphs, SummaryBlock(r)), FlatMap(BlockParagraphs, ExperienceBlock(r)),
           FlatMap(BlockParagraphs, EducationBlock(r)), FlatMap(BlockParagraphs, SkillsBlock(r)),
           FlatMap(BlockParagraphs, CertificationsBlock(r)));
  }

  method AddSummary(doc: Document, r: Context)
    modifies doc
    ensures doc.paragraphs == old(doc.paragraphs) + FlatMap(BlockParagraphs, SummaryBlock(r))
  {
    BlockIfParagraphs(r.summary != "", "Professional Summary", [r.summary]);
    if r.summary != "" {
      doc.AddParagraph("Professional Summary");
      doc.AddParagraph(r.summary);
    }
  }

  method AddExperience(doc: Document, r: Context)
    modifies doc
    ensures doc.paragraphs == old(doc.paragraphs) + FlatMap(BlockParagraphs, ExperienceBlock(r))
  {
    BlockIfParagraphs(r.experience != [], "Experience", FlatMap(JobParagraphs, r.experience));
    CatAssociates(doc.paragraphs, ["Experience"], FlatMap(JobParagraphs, r.experience));
    if r.experience != [] {
      doc.AddParagraph("Experience");
      AddJobs(doc, r.experience);
    }
  }

  method AddEducation(doc: Document, r: Context)
    modifies doc
    ensures doc.paragraphs == old(doc.paragraphs) + FlatMap(BlockParagraphs, EducationBlock(r))
  {
    BlockIfParagraphs(r.education != [], "Education", Map(DegreeParagraph, r.education));
    if r.education != [] {
      doc.AddParagraph("Education");
      AddDegrees(doc, r.education);
    }
  }

  method AddSkills(doc: Document, r: Context)
    modifies doc
    ensures doc.paragraphs == old(doc.paragraphs) + FlatMap(BlockParagraphs, SkillsBlock(r))
  {
    BlockIfParagraphs(r.skills != [], "Skills", [Join(", ", r.skills)]);
    if r.skills != [] {
      doc.AddParagraph("Skills");
      doc.AddParagraph(Join(", ", r.skills));
    }
  }

  method AddCertifications(doc: Document, r: Context)
    modifies doc
    ensures doc.paragraphs == old(doc.paragraphs) + FlatMap(BlockParagraphs, CertificationsBlock(r))
  {
    BlockIfParagraphs(r.certifications != [], "Certifications", r.certifications);
    if r.certifications != [] {
      doc.AddParagraph("Certifications");
      for k := 0 to |r.certifications|
        invariant doc.paragraphs == old(doc.paragraphs) + (["Certifications"] + r.certifications[..k])
      {
        doc.AddParagraph(r.certifications[k]);
      }
    }
  }

  method Render(r: Context) returns (doc: Document)
    ensures fresh(doc) && doc.paragraphs == Paragraphs(r)
  {
    InOrder(r);
    CatNothing(Header(r));
    doc := new Document();
    AddHeader(doc, r);
    AddSummary(doc, r);
    AddExperience(doc, r);
    AddEducation(doc, r);
    AddSkills(doc, r);
    AddCertifications(doc, r);
  }

  // ---------------------------------------------------------------- what is read

  datatype ParseError = NoText

  /** The document as text: its paragraphs stripped, the blank ones dropped. */
  function RawText(paragraphs: seq<string>): Result<string, ParseError> {
    var kept := NonEmpty(Map(Strip, paragraphs));
    if kept == [] then Err(NoText) else Ok(Join("\n", kept))
  }

  /** A line as it is compared with the known headers; `lower` is `str.lower`. */
  function Normalized(lower: string -> string, line: string): string {
    StripRight(lower(Strip(line)), c => c == ':')
  }

  predicate IsHeader(lower: string -> string, line: string) {
    Normalized(lower, line) in SECTION_HEADERS
  }

  datatype Scan = Scan(sections: map<string, string>, current: Option<string>, lines: seq<string>)

  function SectionText(lines: seq<string>): string {
    Strip(Join("\n", lines))
  }

  /** The sections found, with the one still open closed. */
  function Closed(scan: Scan): map<string, string> {
    if scan.current.None? then scan.sections else scan.sections[scan.current.value := SectionText(scan.lines)]
  }

  function ScanLine(lower: string -> string, scan: Scan, line: string): Scan {
    if IsHeader(lower, line) then Scan(Closed(scan), Some(Normalized(lower, line)), [])
    else if scan.current.Some? then scan.(lines := scan.lines + [Strip(line)])
    else scan
  }

  function ScanLines(lower: string -> string, lines: seq<string>): Scan {
    if lines == [] then Scan(map[], None, [])
    else ScanLine(lower, ScanLines(lower, lines[..|lines| - 1]), lines[|lines| - 1])
  }

  function Sections(lower: string -> string, text: string): map<string, string> {
    Closed(ScanLines(lower, Split(text, '\n')))
  }

  method ExtractSections(lower: string -> string, text: string) returns (sections: map<string, string>)
    ensures sections == Sections(lower, text)
  {
    var lines := Split(text, '\n');
    sections := map[];
    var current: Option<string> := None;
    var currentLines: seq<string> := [];
    for k := 0 to |lines|
      invariant Scan(sections, current, currentLines) == ScanLines(lower, lines[..k])
    {
      assert lines[..k + 1][..k] == lines[..k];
      var stripped := Strip(lines[k]);
      var normalized := StripRight(lower(stripped), c => c == ':');
      if normalized in SECTION_HEADERS {
        if current.Some? {
          sections := sections[current.value := Strip(Join("\n", currentLines))];
        }
        current := Some(normalized);
        currentLines := [];
      } else if current.Some? {
        currentLines := currentLines + [stripped];
      }
    }
    assert lines[..|lines|] == lines;
    if current.Some? {
      sections := sections[current.value := Strip(Join("\n", currentLines))];
    }
  }

  function FirstSection(sections: map<string, string>, keys: seq<string>): string {
    if keys == [] then ""
    else if keys[0] in sections then sections[keys[0]]
    else FirstSection(sections, keys[1..])
  }

  function FirstDelimiter(line: string, ds: seq<char>): Option<char> {
    if ds == [] then None else if ds[0] in line then Some(ds[0]) else FirstDelimiter(line, ds[1..])
  }

  predicate IsBullet(c: char) {
    c == '-' || c == '*' || c == '\U{2022}' || c == '\U{2023}' || c == ' '
  }

  /** The skills one line lists: split at the first delimiter it has, or the line as one skill. */
  function LineSkills(untrimmed: string): seq<string> {
    var line := Strip(untrimmed);
    if line == "" then []
    else match FirstDelimiter(line, DELIMITERS)
      case Some(d) => NonEmpty(Map(Strip, Split(line, d)))
      case None =>
        var cleaned := Strip(StripLeft(line, IsBullet));
        if cleaned != "" && |cleaned| < 60 then [cleaned] else []
  }

  function Lowered(lower: string -> string, skills: seq<string>): set<string> {
    set x | x in skills :: lower(x)
  }

  /** Repeats ignoring case, and one-character skills, left out. */
  function Unique(lower: string -> string, skills: seq<string>): seq<string> {
    if skills == [] then []
    else
      var before := Unique(lower, skills[..|skills| - 1]);
      var skill := skills[|skills| - 1];
      if lower(skill) !in Lowered(lower, before) && |skill| > 1 then before + [skill] else before
  }

  function Skills(lower: string -> string, text: string, sections: map<string, string>): seq<string> {
    var found := FirstSection(sections, SKILL_SECTIONS);
    Unique(lower, FlatMap(LineSkills, Split(if found == "" then text else found, '\n')))
  }

  method SkillsOnLine(untrimmed: string) returns (skills: seq<string>)
    ensures skills == LineSkills(untrimmed)
  {
    var line := Strip(untrimmed);
    if line == "" {
      return [];
    }
    for k := 0 to |DELIMITERS|
      invariant FirstDelimiter(line, DELIMITERS) == FirstDelimiter(line, DELIMITERS[k..])
    {
      if DELIMITERS[k] in line {
        return NonEmpty(Map(Strip, Split(line, DELIMITERS[k])));
      }
      assert DELIMITERS[k..][1..] == DELIMITERS[k + 1..];
    }
    var cleaned := Strip(StripLeft(line, IsBullet));
    skills := if cleaned != "" && |cleaned| < 60 then [cleaned] else [];
  }

  method WithoutRepeats(lower: string -> string, skills: seq<string>) returns (unique: seq<string>)
    ensures unique == Unique(lower, skills)
  {
    var seen: set<string> := {};
    unique := [];
    for k := 0 to |skills|
      invariant unique == Unique(lower, skills[..k])
      invariant seen == Lowered(lower, unique)
    {
      assert skills[..k + 1][..k] == skills[..k];
      if lower(skills[k]) !in seen && |skills[k]| > 1 {
        seen := seen + {lower(skills[k])};
        unique := unique + [skills[k]];
      }
    }
    assert skills[..|skills|] == skills;
  }

  method ExtractSkills(lower: string -> string, text: string, sections: map<string, string>)
    returns (skills: seq<string>)
    ensures skills == Skills(lower, text, sections)
  {
    var skillsText := "";
    for k := 0 to |SKILL_SECTIONS|
      invariant skillsText == ""
      invariant FirstSection(sections, SKILL_SECTIONS) == FirstSection(sections, SKILL_SECTIONS[k..])
    {
      if SKILL_SECTIONS[k] in sections {
        skillsText := sections[SKILL_SECTIONS[k]];
        break;
      }
      assert SKILL_SECTIONS[k..][1..] == SKILL_SECTIONS[k + 1..];
    }
    if skillsText == "" {
      skillsText := text;
    }
    var lines := Split(skillsText, '\n');
    var raw: seq<string> := [];
    for k := 0 to |lines|
      invariant raw == FlatMap(LineSkills, lines[..k])
    {
      assert lines[..k + 1][..k] == lines[..k];
      var found := SkillsOnLine(lines[k]);
      raw := raw + found;
    }
    assert lines[..|lines|] == lines;
    skills := WithoutRepeats(lower, raw);
  }
}
