/**
  The application's constants: the sample document the editor starts from,
  the template, font and colour menus, and the initial style.
 */
module Constants {
  import opened Types
  import opened Seqs

  /* The long passages of the sample document, kept as named constants. */

  const SampleSummary: string := "Highly motivated Senior Software Engineer with over 8 years of experience in building scalable web applications. Proficient in React, Node.js, and cloud technologies. Seeking to leverage expertise in a challenging role."
  const SampleWork1Bullets: seq<string> := [
    "Led a team of 5 engineers to develop and launch a new SaaS platform, resulting in a 30% increase in user engagement.",
    "Architected and implemented a microservices-based backend using Node.js and Docker, improving system scalability and reducing latency by 40%.",
    "Mentored junior developers and conducted code reviews to maintain high code quality standards."]
  const SampleWork2Bullets: seq<string> := [
    "Developed and maintained frontend components using React and Redux.",
    "Collaborated with UX/UI designers to create intuitive and responsive user interfaces.",
    "Wrote unit and integration tests, increasing code coverage by 25%."]
  const SampleProjectDescription: string := "Personal portfolio built with Next.js and Tailwind CSS, deployed on Vercel."

  /** The document the editor starts from. */
  function InitialResumeData(): ResumeData
  {
    ResumeData(
      PersonalInfo(
        "Jane Doe",
        "jane.doe@example.com",
        "123-456-7890",
        "linkedin.com/in/janedoe",
        "janedoe.dev",
        "San Francisco, CA"),
      SampleSummary,
      [ WorkExperience(
          "work1", "Senior Software Engineer", "Tech Solutions Inc.", "San Francisco, CA",
          "Jan 2018", "Present", true, SampleWork1Bullets),
        WorkExperience(
          "work2", "Software Engineer", "Innovate LLC", "Palo Alto, CA",
          "Jun 2015", "Dec 2017", false, SampleWork2Bullets) ],
      [ Education("edu1", "State University", "Master of Science", "Computer Science", "2013", "2015") ],
      [ Skill("skill1", "React"),
        Skill("skill2", "TypeScript"),
        Skill("skill3", "Node.js"),
        Skill("skill4", "AWS"),
        Skill("skill5", "Docker"),
        Skill("skill6", "SQL & NoSQL") ],
      [ Project("proj1", "Portfolio Website", SampleProjectDescription, "janedoe.dev") ])
  }

  predicate ContactComplete(p: PersonalInfo)
  {
    p.name != "" && p.email != "" && p.phone != "" && p.linkedin != "" && p.website != "" && p.address != ""
  }

  /** Ids within each list of the sample document are pairwise distinct. */
  lemma InitialIdsUnique()
    ensures IdsUnique(InitialResumeData())
  {
    var d := InitialResumeData();
    var skillIds := Keys(d.skills, SkillId);
    assert skillIds == ["skill1", "skill2", "skill3", "skill4", "skill5", "skill6"];
    assert forall i, j :: 0 <= i < j < 6 ==> skillIds[i][5] != skillIds[j][5];
    assert Keys(d.workExperience, WorkId) == ["work1", "work2"];
    assert Keys(d.workExperience, WorkId)[0][4] != Keys(d.workExperience, WorkId)[1][4];
  }

  /** Every list of the sample document is populated and every contact field
      is filled in. */
  lemma InitialResumeComplete()
    ensures var d := InitialResumeData();
      && d.workExperience != [] && d.education != [] && d.skills != [] && d.projects != []
      && ContactComplete(d.personalInfo) && d.summary != ""
  {
  }

  /** The current sample job stores "Present"; the earlier one is closed. */
  lemma InitialJobsDated()
    ensures var jobs := InitialResumeData().workExperience;
      && |jobs| == 2
      && jobs[0].isCurrent && jobs[0].endDate == "Present"
      && !jobs[1].isCurrent && jobs[1].endDate == "Dec 2017"
  {
  }

  datatype TemplateOption = TemplateOption(id: TemplateId, name: string)
  datatype FontOption = FontOption(id: string, name: string)
  datatype ColorOption = ColorOption(id: string, name: string, hex: string)

  function Templates(): seq<TemplateOption>
  {
    [ TemplateOption(Modern, "Modern"),
      TemplateOption(Professional, "Professional"),
      TemplateOption(Creative, "Creative") ]
  }

  function TemplateIds(): seq<TemplateId>
  {
    seq(|Templates()|, i requires 0 <= i < |Templates()| => Templates()[i].id)
  }

  /** The template menu offers every variant exactly once, Modern first. */
  lemma TemplatesListEachOnce(t: TemplateId)
    ensures multiset(TemplateIds())[t] == 1
    ensures Templates()[0].id == Modern
  {
    assert TemplateIds() == [Modern, Professional, Creative];
  }

  function FontOptions(): seq<FontOption>
  {
    [ FontOption("font-sans", "Inter (Sans-serif)"),
      FontOption("font-serif", "Lora (Serif)"),
      FontOption("font-mono", "Roboto Mono (Monospace)"),
      FontOption("font-roboto", "Roboto (Sans-serif)"),
      FontOption("font-open-sans", "Open Sans (Sans-serif)"),
      FontOption("font-lato", "Lato (Sans-serif)"),
      FontOption("font-merriweather", "Merriweather (Serif)"),
      FontOption("font-playfair-display", "Playfair Display (Serif)"),
      FontOption("font-montserrat", "Montserrat (Sans-serif)"),
      FontOption("font-nunito", "Nunito (Sans-serif)"),
      FontOption("font-raleway", "Raleway (Sans-serif)") ]
  }

  function FontId(f: FontOption): string { f.id }

  function ColorOptions(): seq<ColorOption>
  {
    [ ColorOption("blue", "Blue", "#2563eb"),
      ColorOption("green", "Green", "#10b981"),
      ColorOption("gray", "Gray", "#4b5563"),
      ColorOption("purple", "Purple", "#7c3aed") ]
  }

  function InitialStyle(): TemplateStyle
  {
    TemplateStyle(FontOptions()[0].id, ColorOptions()[0].hex)
  }

  /** Font ids are distinct, and the initial style is the first font with
      the first colour. */
  lemma FontOptionsAndInitialStyle()
    ensures UniqueKeys(FontOptions(), FontId)
    ensures InitialStyle().fontFamily == "font-sans"
    ensures InitialStyle().primaryColor == "#2563eb"
  {
  }
}
