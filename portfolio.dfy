/**
 * The portfolio data model: one value of `PortfolioData` holds everything the
 * editor stores and the generator reads. Every text field is free-form; a skill
 * level is an integer that nothing clamps.
 */
module Portfolio {

  datatype SocialMedia = SocialMedia(linkedin: string, github: string, twitter: string)

  datatype Personal = Personal(
    name: string,
    title: string,
    about: string,
    photo: string,
    email: string,
    phone: string,
    location: string,
    socialMedia: SocialMedia)

  datatype Skill = Skill(name: string, level: int)

  datatype Project = Project(title: string, description: string, image: string, link: string)

  datatype Experience = Experience(company: string, position: string, date: string, description: string)

  datatype Theme = Theme(primaryColor: string, textColor: string, backgroundColor: string, accentColor: string)

  datatype PortfolioData = PortfolioData(
    personal: Personal,
    skills: seq<Skill>,
    projects: seq<Project>,
    experience: seq<Experience>,
    theme: Theme)

  /** The entry appended by "add skill". */
  const NewSkill := Skill("New Skill", 50)

  /** The entry appended by "add project". */
  const NewProject := Project("New Project", "Project description", "https://placehold.co/300x200", "https://project-example.com")

  /** The entry appended by "add experience". */
  const NewExperience := Experience("New Company", "Position", "2022 - 2023", "Job description")

  /** The seed's personal information: placeholders for the user to replace. */
  function SeedPersonal(): Personal
  {
    Personal(
      "Your Name",
      "Your Profession / Expertise",
      "Write a short description about yourself. You can mention your experiences, interests, and goals.",
      "https://placehold.co/300x300",
      "example@email.com",
      "+1 555 123 4567",
      "New York, USA",
      SocialMedia("https://linkedin.com/in/username", "https://github.com/username", "https://twitter.com/username"))
  }

  /** The seed's skills; the range input shows levels from 0 to 100. */
  function SeedSkills(): (r: seq<Skill>)
    ensures |r| == 3 && forall i :: 0 <= i < |r| ==> 0 <= r[i].level <= 100
  {
    [Skill("Web Development", 90), Skill("UI/UX Design", 75), Skill("Mobile App Development", 60)]
  }

  function SeedProjects(): seq<Project>
  {
    [Project("E-Commerce Website", "A comprehensive e-commerce platform developed using React and Node.js.",
             "https://placehold.co/300x200", "https://project-example.com"),
     Project("Mobile Fitness App", "A fitness application developed with Flutter, offering personalized workout programs.",
             "https://placehold.co/300x200", "https://project-example.com")]
  }

  function SeedExperience(): seq<Experience>
  {
    [Experience("ABC Technology", "Senior Software Developer", "2020 - Present",
                "Web application development, team leadership, and project management."),
     Experience("XYZ Digital", "Frontend Developer", "2018 - 2020", "Designing and developing user interfaces.")]
  }

  /** The data the editor starts from when nothing has been stored yet. */
  function SeedData(): PortfolioData
  {
    PortfolioData(SeedPersonal(), SeedSkills(), SeedProjects(), SeedExperience(),
                  Theme("#3b82f6", "#1e293b", "#ffffff", "#f97316"))
  }

  // ---------------------------------------------------------------------------
  // Keys of the records: reading and overwriting one field by its key. Each
  // setter changes the named field to the new value and leaves every other
  // field as it was; the extensionality lemmas say the fields determine the
  // record, so nothing else can have changed.
  // ---------------------------------------------------------------------------

  datatype SocialField = Linkedin | Github | Twitter

  function SocialGet(s: SocialMedia, f: SocialField): string
  {
    match f
    case Linkedin => s.linkedin
    case Github => s.github
    case Twitter => s.twitter
  }

  function SocialSet(s: SocialMedia, f: SocialField, v: string): (r: SocialMedia)
    ensures SocialGet(r, f) == v
    ensures forall g :: g != f ==> SocialGet(r, g) == SocialGet(s, g)
  {
    match f
    case Linkedin => s.(linkedin := v)
    case Github => s.(github := v)
    case Twitter => s.(twitter := v)
  }

  lemma SocialExtensional(s: SocialMedia, u: SocialMedia)
    requires forall f :: SocialGet(s, f) == SocialGet(u, f)
    ensures s == u
  {
    assert SocialGet(s, Linkedin) == SocialGet(u, Linkedin);
    assert SocialGet(s, Github) == SocialGet(u, Github);
    assert SocialGet(s, Twitter) == SocialGet(u, Twitter);
  }

  /** The text fields of `Personal` that are not nested. */
  datatype PersonalField = Name | Title | About | Photo | Email | Phone | Location

  /** A text field of `Personal`: one of its own, or one inside `socialMedia`. */
  datatype PersonalKey = Own(field: PersonalField) | Social(social: SocialField)

  function PersonalGet(p: Personal, k: PersonalKey): string
  {
    match k
    case Own(Name) => p.name
    case Own(Title) => p.title
    case Own(About) => p.about
    case Own(Photo) => p.photo
    case Own(Email) => p.email
    case Own(Phone) => p.phone
    case Own(Location) => p.location
    case Social(f) => SocialGet(p.socialMedia, f)
  }

  function PersonalSet(p: Personal, k: PersonalKey, v: string): (r: Personal)
    ensures PersonalGet(r, k) == v
    ensures forall j :: j != k ==> PersonalGet(r, j) == PersonalGet(p, j)
  {
    match k
    case Own(Name) => p.(name := v)
    case Own(Title) => p.(title := v)
    case Own(About) => p.(about := v)
    case Own(Photo) => p.(photo := v)
    case Own(Email) => p.(email := v)
    case Own(Phone) => p.(phone := v)
    case Own(Location) => p.(location := v)
    case Social(f) => p.(socialMedia := SocialSet(p.socialMedia, f, v))
  }

  lemma PersonalExtensional(p: Personal, q: Personal)
    requires forall k :: PersonalGet(p, k) == PersonalGet(q, k)
    ensures p == q
  {
    forall f: SocialField ensures SocialGet(p.socialMedia, f) == SocialGet(q.socialMedia, f) {
      assert PersonalGet(p, Social(f)) == PersonalGet(q, Social(f));
    }
    SocialExtensional(p.socialMedia, q.socialMedia);
    assert PersonalGet(p, Own(Name)) == PersonalGet(q, Own(Name));
    assert PersonalGet(p, Own(Title)) == PersonalGet(q, Own(Title));
    assert PersonalGet(p, Own(About)) == PersonalGet(q, Own(About));
    assert PersonalGet(p, Own(Photo)) == PersonalGet(q, Own(Photo));
    assert PersonalGet(p, Own(Email)) == PersonalGet(q, Own(Email));
    assert PersonalGet(p, Own(Phone)) == PersonalGet(q, Own(Phone));
    assert PersonalGet(p, Own(Location)) == PersonalGet(q, Own(Location));
  }

  datatype ProjectField = ProjectTitle | ProjectDescription | ProjectImage | ProjectLink

  function ProjectGet(p: Project, f: ProjectField): string
  {
    match f
    case ProjectTitle => p.title
    case ProjectDescription => p.description
    case ProjectImage => p.image
    case ProjectLink => p.link
  }

  function ProjectSet(p: Project, f: ProjectField, v: string): (r: Project)
    ensures ProjectGet(r, f) == v
    ensures forall g :: g != f ==> ProjectGet(r, g) == ProjectGet(p, g)
  {
    match f
    case ProjectTitle => p.(title := v)
    case ProjectDescription => p.(description := v)
    case ProjectImage => p.(image := v)
    case ProjectLink => p.(link := v)
  }

  lemma ProjectExtensional(p: Project, q: Project)
    requires forall f :: ProjectGet(p, f) == ProjectGet(q, f)
    ensures p == q
  {
    assert ProjectGet(p, ProjectTitle) == ProjectGet(q, ProjectTitle);
    assert ProjectGet(p, ProjectDescription) == ProjectGet(q, ProjectDescription);
    assert ProjectGet(p, ProjectImage) == ProjectGet(q, ProjectImage);
    assert ProjectGet(p, ProjectLink) == ProjectGet(q, ProjectLink);
  }

  datatype ExperienceField = ExperienceCompany | ExperiencePosition | ExperienceDate | ExperienceDescription

  function ExperienceGet(e: Experience, f: ExperienceField): string
  {
    match f
    case ExperienceCompany => e.company
    case ExperiencePosition => e.position
    case ExperienceDate => e.date
    case ExperienceDescription => e.description
  }

  function ExperienceSet(e: Experience, f: ExperienceField, v: string): (r: Experience)
    ensures ExperienceGet(r, f) == v
    ensures forall g :: g != f ==> ExperienceGet(r, g) == ExperienceGet(e, g)
  {
    match f
    case ExperienceCompany => e.(company := v)
    case ExperiencePosition => e.(position := v)
    case ExperienceDate => e.(date := v)
    case ExperienceDescription => e.(description := v)
  }

  lemma ExperienceExtensional(e: Experience, u: Experience)
    requires forall f :: ExperienceGet(e, f) == ExperienceGet(u, f)
    ensures e == u
  {
    assert ExperienceGet(e, ExperienceCompany) == ExperienceGet(u, ExperienceCompany);
    assert ExperienceGet(e, ExperiencePosition) == ExperienceGet(u, ExperiencePosition);
    assert ExperienceGet(e, ExperienceDate) == ExperienceGet(u, ExperienceDate);
    assert ExperienceGet(e, ExperienceDescription) == ExperienceGet(u, ExperienceDescription);
  }

  datatype ThemeField = PrimaryColor | TextColor | BackgroundColor | AccentColor

  function ThemeGet(t: Theme, f: ThemeField): string
  {
    match f
    case PrimaryColor => t.primaryColor
    case TextColor => t.textColor
    case BackgroundColor => t.backgroundColor
    case AccentColor => t.accentColor
  }

  function ThemeSet(t: Theme, f: ThemeField, v: string): (r: Theme)
    ensures ThemeGet(r, f) == v
    ensures forall g :: g != f ==> ThemeGet(r, g) == ThemeGet(t, g)
  {
    match f
    case PrimaryColor => t.(primaryColor := v)
    case TextColor => t.(textColor := v)
    case BackgroundColor => t.(backgroundColor := v)
    case AccentColor => t.(accentColor := v)
  }

  lemma ThemeExtensional(t: Theme, u: Theme)
    requires forall f :: ThemeGet(t, f) == ThemeGet(u, f)
    ensures t == u
  {
    assert ThemeGet(t, PrimaryColor) == ThemeGet(u, PrimaryColor);
    assert ThemeGet(t, TextColor) == ThemeGet(u, TextColor);
    assert ThemeGet(t, BackgroundColor) == ThemeGet(u, BackgroundColor);
    assert ThemeGet(t, AccentColor) == ThemeGet(u, AccentColor);
  }
}
