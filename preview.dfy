/**
 * The preview page's export: the static HTML document built from one snapshot
 * of the portfolio data, and the name of the file it is downloaded as.
 *
 * The document is one template: fixed text with the user's strings put in
 * verbatim (nothing is escaped), each list rendered as one fragment per entry
 * joined with the empty string, empty image references replaced by
 * placeholders, and the four theme colours as the values of the stylesheet's
 * custom properties. The copyright year is the one input not taken from the
 * data; it is a parameter here.
 *
 * Each template is written as the list of its pieces (`...Pieces`), the text
 * being their concatenation; the lemmas about the document follow a value
 * down through the pieces that hold it.
 */
module Preview {
  import opened Portfolio
  import opened JsBuiltins
  import opened Text

  /**
   * The fixed text of the page that does not depend on the data: the head up
   * to the title, the stylesheet around `:root` and `.skill-progress`, and the
   * six SVG icons. The page's own text is `PageBoilerplate`; every property
   * below is proved for any boilerplate, hence for that one.
   */
  datatype Boilerplate = Boilerplate(
    headOpen: string,
    styleOpen: string,
    rulesBefore: string,
    rulesAfter: string,
    mailIcon: string,
    phoneIcon: string,
    pinIcon: string,
    linkedinIcon: string,
    githubIcon: string,
    twitterIcon: string)

  const ProfilePlaceholder := "https://placehold.co/300x300"
  const ProjectPlaceholder := "https://placehold.co/300x200"

  // ---------------------------------------------------------------------------
  // Building blocks of the template
  // ---------------------------------------------------------------------------

  /** A line break followed by `n` spaces of indentation. */
  function Line(n: nat): string
  {
    "\n" + seq(n, _ => ' ')
  }

  /** An attribute with its value between double quotes, as the template writes it. */
  function Attr(name: string, value: string): string
  {
    name + "=\"" + value + "\""
  }

  /** A CSS declaration. */
  function CssVar(property: string, value: string): string
  {
    property + ": " + value + ";"
  }

  function Span(text: string): string
  {
    "<span>" + text + "</span>"
  }

  /** `candidate || placeholder`: an empty image reference falls back to the placeholder. */
  function ImageSource(candidate: string, placeholder: string): string
  {
    if candidate == "" then placeholder else candidate
  }

  /** The `onerror` handler: the browser swaps a broken image for the placeholder. */
  function OnError(placeholder: string, what: string): string
  {
    "this.onerror=null; this.src='" + placeholder + "'; console.error('" + what + " image could not be loaded');"
  }

  function ImgPieces(src: string, alt: string, cssClass: string, onerror: string): seq<string>
  {
    ["<img ", Line(2), Attr("src", src), " ", Line(2), Attr("alt", alt), " ", Line(2), Attr("class", cssClass),
     " ", Line(2), Attr("onerror", onerror), Line(0), ">"]
  }

  /** An `img` element, one attribute per line. */
  function Img(src: string, alt: string, cssClass: string, onerror: string): string
  {
    Concat(ImgPieces(src, alt, cssClass, onerror))
  }

  // ---------------------------------------------------------------------------
  // <head>: title and stylesheet
  // ---------------------------------------------------------------------------

  function TitleElement(name: string): string
  {
    "<title>" + name + " - Portfolio</title>"
  }

  /** The custom property that carries each theme colour. */
  function ThemeVar(f: ThemeField): string
  {
    match f
    case PrimaryColor => "--primary-color"
    case TextColor => "--text-color"
    case BackgroundColor => "--background-color"
    case AccentColor => "--accent-color"
  }

  function RootPieces(t: Theme): seq<string>
  {
    [":root {", Line(12), CssVar(ThemeVar(PrimaryColor), ThemeGet(t, PrimaryColor)),
     Line(12), CssVar(ThemeVar(TextColor), ThemeGet(t, TextColor)),
     Line(12), CssVar(ThemeVar(BackgroundColor), ThemeGet(t, BackgroundColor)),
     Line(12), CssVar(ThemeVar(AccentColor), ThemeGet(t, AccentColor)),
     Line(8), "}"]
  }

  /** The `:root` rule: one custom property per theme colour. */
  function RootVariables(t: Theme): string
  {
    Concat(RootPieces(t))
  }

  const PrimaryColorRef := "var(--primary-color)"

  /** The rule that colours the filled part of every skill bar. */
  const SkillProgressRule := ".skill-progress {" + Line(12) + CssVar("height", "100%") + Line(12)
                             + CssVar("background-color", PrimaryColorRef) + Line(8) + "}"

  /** Every rule after `:root`; none of them depends on the data. */
  function StyleSheet(b: Boilerplate): string
  {
    Concat([b.rulesBefore, SkillProgressRule, b.rulesAfter])
  }

  const Doctype := "\n<!DOCTYPE html>"
  const HeadClose := "\n    </style>\n</head>"

  function HeadPieces(b: Boilerplate, name: string, t: Theme): seq<string>
  {
    [Doctype, b.headOpen, TitleElement(name), b.styleOpen, RootVariables(t), StyleSheet(b), HeadClose]
  }

  function DocumentHead(b: Boilerplate, name: string, t: Theme): string
  {
    Concat(HeadPieces(b, name, t))
  }

  // ---------------------------------------------------------------------------
  // <body>: profile header, three list sections, footer
  // ---------------------------------------------------------------------------

  const BodyOpen := "\n<body>\n    <div class=\"container\">\n        "
  const HtmlEnd := "</html>\n    "
  const DocumentClose := "\n    </div>\n</body>\n" + HtmlEnd

  function ContactItem(icon: string, value: string): string
  {
    Concat(["<div ", Attr("class", "contact-item"), ">", Line(28), icon, Line(28), Span(value), Line(24), "</div>"])
  }

  function SocialLink(href: string, icon: string): string
  {
    Concat(["<a ", Attr("href", href), " ", Attr("class", "social-link"), " ", Attr("target", "_blank"), ">",
            Line(28), icon, Line(24), "</a>"])
  }

  function ContactInfo(b: Boilerplate, email: string, phone: string, location: string): string
  {
    Concat(["<div ", Attr("class", "contact-info"), ">", Line(24), ContactItem(b.mailIcon, email), Line(24),
            ContactItem(b.phoneIcon, phone), Line(24), ContactItem(b.pinIcon, location), Line(20), "</div>"])
  }

  function SocialLinks(b: Boilerplate, s: SocialMedia): string
  {
    Concat(["<div ", Attr("class", "social-links"), ">", Line(24), SocialLink(s.linkedin, b.linkedinIcon), Line(24),
            SocialLink(s.github, b.githubIcon), Line(24), SocialLink(s.twitter, b.twitterIcon), Line(20), "</div>"])
  }

  function ProfileImage(p: Personal): string
  {
    Img(ImageSource(p.photo, ProfilePlaceholder), p.name, "profile-image", OnError(ProfilePlaceholder, "Profile"))
  }

  function ProfileContent(b: Boilerplate, p: Personal): string
  {
    Concat(["<div ", Attr("class", "profile-content"), ">",
            Line(20), "<h1>", p.name, "</h1>", Line(20), "<h2>", p.title, "</h2>", Line(20), "<p>", p.about, "</p>",
            Line(20), Line(20), ContactInfo(b, p.email, p.phone, p.location), Line(20), Line(20), SocialLinks(b, p.socialMedia),
            Line(16), "</div>"])
  }

  function ProfileHeaderPieces(b: Boilerplate, p: Personal): seq<string>
  {
    ["<header>", Line(12), "<div ", Attr("class", "profile"), ">", Line(16), ProfileImage(p),
     Line(16), ProfileContent(b, p), Line(12), "</div>", Line(8), "</header>"]
  }

  function ProfileHeader(b: Boilerplate, p: Personal): string
  {
    Concat(ProfileHeaderPieces(b, p))
  }

  function ContainerPieces(cssClass: string, items: string): seq<string>
  {
    ["<div ", Attr("class", cssClass), ">", Line(16), items, Line(12), "</div>"]
  }

  /** The element that holds a list's fragments. */
  function Container(cssClass: string, items: string): string
  {
    Concat(ContainerPieces(cssClass, items))
  }

  function SectionPieces(heading: string, cssClass: string, items: string): seq<string>
  {
    [Line(8), Line(8), "<section>", Line(12), "<h3 ", Attr("class", "section-title"), ">", heading, "</h3>",
     Line(12), Container(cssClass, items), Line(8), "</section>"]
  }

  function Section(heading: string, cssClass: string, items: string): string
  {
    Concat(SectionPieces(heading, cssClass, items))
  }

  /** How a level is printed: the integer as given, then a percent sign. */
  function Percent(level: int): string
  {
    ShowInt(level) + "%"
  }

  /** The filled part of a skill bar: as wide as the level says. */
  function SkillFill(level: int): string
  {
    "<div " + Attr("class", "skill-progress") + " " + Attr("style", "width: " + ShowInt(level) + "%") + "></div>"
  }

  function SkillItemPieces(s: Skill): seq<string>
  {
    [Line(20), "<div ", Attr("class", "skill-item"), ">", Line(24), "<div ", Attr("class", "skill-info"), ">",
     Line(28), Span(s.name), Line(28), Span(Percent(s.level)),
     Line(24), "</div>", Line(24), "<div ", Attr("class", "skill-bar"), ">", Line(28), SkillFill(s.level),
     Line(24), "</div>", Line(20), "</div>", Line(16)]
  }

  function SkillItem(s: Skill): string
  {
    Concat(SkillItemPieces(s))
  }

  function ProjectImage(q: Project): string
  {
    Img(ImageSource(q.image, ProjectPlaceholder), q.title, "project-image", OnError(ProjectPlaceholder, "Project"))
  }

  function ProjectItemPieces(q: Project): seq<string>
  {
    [Line(20), "<div ", Attr("class", "project-card"), ">", Line(24), ProjectImage(q),
     Line(24), "<div ", Attr("class", "project-content"), ">",
     Line(28), "<h4 ", Attr("class", "project-title"), ">", q.title, "</h4>",
     Line(28), "<p ", Attr("class", "project-description"), ">", q.description, "</p>",
     Line(28), "<a ", Attr("href", q.link), " ", Attr("class", "project-link"), " ", Attr("target", "_blank"), ">View Project</a>",
     Line(24), "</div>", Line(20), "</div>", Line(16)]
  }

  function ProjectItem(q: Project): string
  {
    Concat(ProjectItemPieces(q))
  }

  function DateElement(e: Experience): string
  {
    "<div " + Attr("class", "experience-date") + ">" + e.date + "</div>"
  }

  function PositionElement(e: Experience): string
  {
    "<h4 " + Attr("class", "experience-position") + ">" + e.position + "</h4>"
  }

  function CompanyElement(e: Experience): string
  {
    "<div " + Attr("class", "experience-company") + ">" + e.company + "</div>"
  }

  function DescriptionElement(e: Experience): string
  {
    "<p>" + e.description + "</p>"
  }

  function ExperienceItemPieces(e: Experience): seq<string>
  {
    [Line(20), "<div ", Attr("class", "experience-item"), ">", Line(24), DateElement(e), Line(24), PositionElement(e),
     Line(24), CompanyElement(e), Line(24), DescriptionElement(e), Line(20), "</div>", Line(16)]
  }

  function ExperienceItem(e: Experience): string
  {
    Concat(ExperienceItemPieces(e))
  }

  function SkillsSection(skills: seq<Skill>): string
  {
    Section("My Skills", "skills", Join(SkillItem, skills))
  }

  function ProjectsSection(projects: seq<Project>): string
  {
    Section("My Projects", "projects", Join(ProjectItem, projects))
  }

  function ExperienceSection(experience: seq<Experience>): string
  {
    Section("Work Experience", "experience-timeline", Join(ExperienceItem, experience))
  }

  function CopyrightPieces(year: int, name: string): seq<string>
  {
    ["<p>&copy; ", ShowInt(year), " ", name, " - All Rights Reserved</p>"]
  }

  /** The copyright line: the year, then the name. */
  function Copyright(year: int, name: string): string
  {
    Concat(CopyrightPieces(year, name))
  }

  function FooterPieces(year: int, name: string): seq<string>
  {
    [Line(8), Line(8), "<footer>", Line(12), Copyright(year, name),
     Line(12), "<p ", Attr("style", "margin-top: 10px; font-size: 0.8rem;"), ">Created with PortfolioMaker</p>",
     Line(8), "</footer>"]
  }

  function Footer(year: int, name: string): string
  {
    Concat(FooterPieces(year, name))
  }

  function DocumentPieces(b: Boilerplate, d: PortfolioData, year: int): seq<string>
  {
    [DocumentHead(b, d.personal.name, d.theme), BodyOpen, ProfileHeader(b, d.personal), SkillsSection(d.skills),
     ProjectsSection(d.projects), ExperienceSection(d.experience), Footer(year, d.personal.name), DocumentClose]
  }

  /** The document for the data and the year, around the boilerplate `b`. */
  function Document(b: Boilerplate, d: PortfolioData, year: int): string
  {
    Concat(DocumentPieces(b, d, year))
  }

  /** The exported document. Total: every value of the data gives a document. */
  function GenerateHtml(d: PortfolioData, year: int): string
  {
    Document(PageBoilerplate, d, year)
  }

  // ---------------------------------------------------------------------------
  // Properties of the document. Each proof hides the templates it does not
  // look into, so that the solver only sees the level it works on.
  // ---------------------------------------------------------------------------

  /** Every document starts with the doctype and ends with the closing `html` tag. */
  lemma DocumentShape(b: Boilerplate, d: PortfolioData, year: int)
    ensures var g := Document(b, d, year);
            Doctype <= g && |HtmlEnd| <= |g| && g[|g| - |HtmlEnd|..] == HtmlEnd
  {
    hide TitleElement, RootVariables, StyleSheet, ProfileHeader, SkillsSection, ProjectsSection, ExperienceSection, Footer;
    var ps := DocumentPieces(b, d, year);
    var g := Document(b, d, year);
    var head := HeadPieces(b, d.personal.name, d.theme);
    assert Concat(head) == Doctype + Concat(head[1..]);
    assert g == Concat(head) + Concat(ps[1..]);
    assert Doctype <= g;
    ConcatSplit(ps, 7);
    assert ps[8..] == [];
    assert g == Concat(ps[..7]) + "\n    </div>\n</body>\n" + HtmlEnd;
  }

  /** Text found in one part of the body is found in the document. */
  lemma InDocument(b: Boilerplate, d: PortfolioData, year: int, x: string)
    requires || Contains(ProfileHeader(b, d.personal), x)
             || Contains(SkillsSection(d.skills), x)
             || Contains(ProjectsSection(d.projects), x)
             || Contains(ExperienceSection(d.experience), x)
             || Contains(Footer(year, d.personal.name), x)
    ensures Contains(Document(b, d, year), x)
  {
    hide Concat, DocumentHead, ProfileHeader, SkillsSection, ProjectsSection, ExperienceSection, Footer;
    var ps := DocumentPieces(b, d, year);
    if Contains(ps[2], x) {
      ContainsPart(ps, 2, x);
    } else if Contains(ps[3], x) {
      ContainsPart(ps, 3, x);
    } else if Contains(ps[4], x) {
      ContainsPart(ps, 4, x);
    } else if Contains(ps[5], x) {
      ContainsPart(ps, 5, x);
    } else {
      ContainsPart(ps, 6, x);
    }
  }

  /** Order found in one list section holds in the document. */
  lemma PrecedesInDocument(b: Boilerplate, d: PortfolioData, year: int, x: string, y: string)
    requires || Precedes(SkillsSection(d.skills), x, y)
             || Precedes(ProjectsSection(d.projects), x, y)
             || Precedes(ExperienceSection(d.experience), x, y)
    ensures Precedes(Document(b, d, year), x, y)
  {
    hide Concat, DocumentHead, ProfileHeader, SkillsSection, ProjectsSection, ExperienceSection, Footer;
    var ps := DocumentPieces(b, d, year);
    if Precedes(ps[3], x, y) {
      PrecedesInPart(ps, 3, x, y);
    } else if Precedes(ps[4], x, y) {
      PrecedesInPart(ps, 4, x, y);
    } else {
      PrecedesInPart(ps, 5, x, y);
    }
  }

  /** The title is the name followed by " - Portfolio". */
  lemma DocumentTitle(b: Boilerplate, d: PortfolioData, year: int)
    ensures Contains(Document(b, d, year), "<title>" + d.personal.name + " - Portfolio</title>")
  {
    hide Concat, Line, RootVariables, StyleSheet, ProfileHeader, SkillsSection, ProjectsSection, ExperienceSection, Footer;
    var t := TitleElement(d.personal.name);
    ContainsSelf(t);
    ContainsPart(HeadPieces(b, d.personal.name, d.theme), 2, t);
    ContainsPart(DocumentPieces(b, d, year), 0, t);
  }

  /** The footer's copyright line holds the year, then the name. */
  lemma DocumentCopyright(b: Boilerplate, d: PortfolioData, year: int)
    ensures Contains(Document(b, d, year), Copyright(year, d.personal.name))
    ensures Precedes(Copyright(year, d.personal.name), ShowInt(year), d.personal.name)
  {
    hide Concat, Line, Attr, ShowInt, Document, ProfileHeader, SkillsSection, ProjectsSection, ExperienceSection;
    var name := d.personal.name;
    var c := Copyright(year, name);
    ContainsSelf(c);
    ContainsPart(FooterPieces(year, name), 4, c);
    InDocument(b, d, year, c);
    PartsPrecede(CopyrightPieces(year, name), 1, 3);
  }

  /**
   * The exported page: the doctype first, the closing `html` tag last, the
   * name in the title and the copyright line in the footer.
   */
  lemma ExportedPage(d: PortfolioData, year: int)
    ensures var r := GenerateHtml(d, year);
            && Doctype <= r && |HtmlEnd| <= |r| && r[|r| - |HtmlEnd|..] == HtmlEnd
            && Contains(r, "<title>" + d.personal.name + " - Portfolio</title>")
            && Contains(r, Copyright(year, d.personal.name))
  {
    hide PageBoilerplate, Document;
    DocumentShape(PageBoilerplate, d, year);
    DocumentTitle(PageBoilerplate, d, year);
    DocumentCopyright(PageBoilerplate, d, year);
  }

  /** Where each colour's declaration stands in the `:root` rule. */
  function RootSlot(f: ThemeField): (k: nat)
    ensures k < 11
  {
    match f
    case PrimaryColor => 2
    case TextColor => 4
    case BackgroundColor => 6
    case AccentColor => 8
  }

  lemma RootSlotHolds(t: Theme, f: ThemeField, c: string)
    ensures RootPieces(t)[RootSlot(f)] == CssVar(ThemeVar(f), ThemeGet(t, f))
    ensures RootPieces(t)[RootSlot(f) := CssVar(ThemeVar(f), c)] == RootPieces(ThemeSet(t, f, c))
  {
    hide Line, CssVar;
    match f
    case PrimaryColor =>
    case TextColor =>
    case BackgroundColor =>
    case AccentColor =>
  }

  /** Each theme colour is the value of its custom property, verbatim. */
  lemma ThemeInStylesheet(b: Boilerplate, d: PortfolioData, year: int)
    ensures forall f :: Contains(Document(b, d, year), CssVar(ThemeVar(f), ThemeGet(d.theme, f)))
  {
    hide Concat, Line, CssVar, ThemeVar, ThemeGet, TitleElement, StyleSheet, ProfileHeader, SkillsSection, ProjectsSection, ExperienceSection, Footer;
    var t := d.theme;
    var head := HeadPieces(b, d.personal.name, t);
    forall f ensures Contains(Document(b, d, year), CssVar(ThemeVar(f), ThemeGet(t, f))) {
      var v := CssVar(ThemeVar(f), ThemeGet(t, f));
      ContainsSelf(v);
      RootSlotHolds(t, f, "");
      ContainsPart(RootPieces(t), RootSlot(f), v);
      ContainsPart(head, 4, v);
      ContainsPart(DocumentPieces(b, d, year), 0, v);
    }
  }

  /** The skill bars are filled with the primary colour, through `var(--primary-color)`. */
  lemma SkillBarsUsePrimaryColor(b: Boilerplate, d: PortfolioData, year: int)
    ensures Contains(Document(b, d, year), ".skill-progress {" + Line(12) + "height: 100%;" + Line(12)
                                           + "background-color: var(--primary-color);" + Line(8) + "}")
  {
    hide Concat, Line, TitleElement, RootVariables, ProfileHeader, SkillsSection, ProjectsSection, ExperienceSection, Footer;
    assert CssVar("height", "100%") == "height: 100%;";
    assert CssVar("background-color", PrimaryColorRef) == "background-color: var(--primary-color);";
    ContainsSelf(SkillProgressRule);
    ContainsPart([b.rulesBefore, SkillProgressRule, b.rulesAfter], 1, SkillProgressRule);
    ContainsPart(HeadPieces(b, d.personal.name, d.theme), 5, SkillProgressRule);
    ContainsPart(DocumentPieces(b, d, year), 0, SkillProgressRule);
  }

  /**
   * A theme colour fills exactly one slot of the document: changing it changes
   * that slot and nothing else.
   */
  lemma ThemeColourIsOneSlot(b: Boilerplate, d: PortfolioData, year: int, f: ThemeField, c: string)
    ensures Substituted(Document(b, d, year), Document(b, d.(theme := ThemeSet(d.theme, f, c)), year), ThemeGet(d.theme, f), c)
  {
    hide Concat, Line, ThemeVar, TitleElement, StyleSheet, ProfileHeader, SkillsSection, ProjectsSection, ExperienceSection, Footer;
    var name := d.personal.name;
    var t, t' := d.theme, ThemeSet(d.theme, f, c);
    var d' := d.(theme := t');
    var x, v := ThemeGet(t, f), ThemeVar(f);
    SubstitutedSlot(x, c);
    SubstitutedInContext(v + ": ", x, c, ";", x, c);
    RootSlotHolds(t, f, c);
    SubstitutedPart(RootPieces(t), RootSlot(f), CssVar(v, c), x, c);
    assert HeadPieces(b, name, t)[4 := RootVariables(t')] == HeadPieces(b, name, t');
    SubstitutedPart(HeadPieces(b, name, t), 4, RootVariables(t'), x, c);
    assert DocumentPieces(b, d, year)[0 := DocumentHead(b, name, t')] == DocumentPieces(b, d', year);
    SubstitutedPart(DocumentPieces(b, d, year), 0, DocumentHead(b, name, t'), x, c);
  }

  /**
   * The profile image shows the photo, or the placeholder when the photo is
   * empty; its `onerror` handler swaps in that same placeholder.
   */
  lemma ProfileImageSource(b: Boilerplate, d: PortfolioData, year: int)
    ensures var p := d.personal;
            var src := if p.photo == "" then ProfilePlaceholder else p.photo;
            Contains(Document(b, d, year), Img(src, p.name, "profile-image", OnError(ProfilePlaceholder, "Profile")))
  {
    hide Concat, Line, Attr, Img, OnError, ProfileContent, Document;
    var img := ProfileImage(d.personal);
    ContainsSelf(img);
    ContainsPart(ProfileHeaderPieces(b, d.personal), 6, img);
    InDocument(b, d, year, img);
  }

  /** An attribute's value fills one slot of the attribute. */
  lemma AttrValueIsOneSlot(name: string, x: string, y: string)
    ensures Substituted(Attr(name, x), Attr(name, y), x, y)
  {
    SubstitutedSlot(x, y);
    SubstitutedInContext(name + "=\"", x, y, "\"", x, y);
  }

  /** An image's source fills one slot of the `img` element. */
  lemma ImageSourceIsOneSlot(x: string, y: string, alt: string, cssClass: string, onerror: string)
    ensures Substituted(Img(x, alt, cssClass, onerror), Img(y, alt, cssClass, onerror), x, y)
  {
    hide Concat, Line, Attr;
    AttrValueIsOneSlot("src", x, y);
    var img := ImgPieces(x, alt, cssClass, onerror);
    assert img[2 := Attr("src", y)] == ImgPieces(y, alt, cssClass, onerror);
    SubstitutedPart(img, 2, Attr("src", y), x, y);
  }

  lemma ProfileHeaderPhotoSlot(b: Boilerplate, p: Personal, photo: string)
    ensures Substituted(ProfileHeader(b, p), ProfileHeader(b, p.(photo := photo)),
                        ImageSource(p.photo, ProfilePlaceholder), ImageSource(photo, ProfilePlaceholder))
  {
    var p' := p.(photo := photo);
    assert ProfileContent(b, p') == ProfileContent(b, p);
    hide Concat, Line, Attr, Img, OnError, ProfileContent;
    var x, y := ImageSource(p.photo, ProfilePlaceholder), ImageSource(photo, ProfilePlaceholder);
    ImageSourceIsOneSlot(x, y, p.name, "profile-image", OnError(ProfilePlaceholder, "Profile"));
    assert ProfileHeaderPieces(b, p)[6 := ProfileImage(p')] == ProfileHeaderPieces(b, p');
    SubstitutedPart(ProfileHeaderPieces(b, p), 6, ProfileImage(p'), x, y);
  }

  /** The photo fills exactly one slot of the document: the profile image's `src`. */
  lemma PhotoIsOneSlot(b: Boilerplate, d: PortfolioData, year: int, photo: string)
    ensures var d' := d.(personal := d.personal.(photo := photo));
            Substituted(Document(b, d, year), Document(b, d', year),
                        ImageSource(d.personal.photo, ProfilePlaceholder), ImageSource(photo, ProfilePlaceholder))
  {
    hide Concat, DocumentHead, ProfileHeader, SkillsSection, ProjectsSection, ExperienceSection, Footer;
    var p := d.personal;
    var p' := p.(photo := photo);
    var d' := d.(personal := p');
    var x, y := ImageSource(p.photo, ProfilePlaceholder), ImageSource(photo, ProfilePlaceholder);
    ProfileHeaderPhotoSlot(b, p, photo);
    assert DocumentPieces(b, d, year)[2 := ProfileHeader(b, p')] == DocumentPieces(b, d', year);
    SubstitutedPart(DocumentPieces(b, d, year), 2, ProfileHeader(b, p'), x, y);
  }

  /** Text found in one fragment of a list is found in the list. */
  lemma InJoin<T>(f: T -> string, xs: seq<T>, i: nat, x: string)
    requires i < |xs| && Contains(f(xs[i]), x)
    ensures Contains(Join(f, xs), x)
  {
    JoinAt(f, xs, i);
    ContainsInContext(Join(f, xs[..i]), f(xs[i]), Join(f, xs[i + 1..]), x);
  }

  /** In a joined list, the fragment of an earlier entry comes before that of a later one. */
  lemma JoinOrder<T>(f: T -> string, xs: seq<T>, i: nat, j: nat)
    requires i < j < |xs|
    ensures Precedes(Join(f, xs), f(xs[i]), f(xs[j]))
  {
    JoinAt(f, xs, j);
    var front := xs[..j];
    JoinAt(f, front, i);
    assert front[i] == xs[i];
    PrecedesWhole(Join(f, front[..i]), f(xs[i]), Join(f, front[i + 1..]), f(xs[j]), Join(f, xs[j + 1..]));
  }

  /** A section's container holds the joined fragments; text among them is in the section. */
  lemma InSection(heading: string, cssClass: string, items: string, x: string)
    requires Contains(items, x)
    ensures Contains(Section(heading, cssClass, items), Container(cssClass, items))
    ensures Contains(Section(heading, cssClass, items), x)
  {
    hide Concat, Line, Attr;
    ContainsPart(ContainerPieces(cssClass, items), 4, x);
    ContainsSelf(Container(cssClass, items));
    ContainsPart(SectionPieces(heading, cssClass, items), 10, Container(cssClass, items));
    ContainsPart(SectionPieces(heading, cssClass, items), 10, x);
  }

  lemma PrecedesInSection(heading: string, cssClass: string, items: string, x: string, y: string)
    requires Precedes(items, x, y)
    ensures Precedes(Section(heading, cssClass, items), x, y)
  {
    hide Concat, Line, Attr;
    PrecedesInPart(ContainerPieces(cssClass, items), 4, x, y);
    PrecedesInPart(SectionPieces(heading, cssClass, items), 10, x, y);
  }

  /**
   * Each list's container holds exactly the fragments of its entries, joined
   * with the empty string; an empty list leaves its container empty.
   */
  lemma ListContainers(b: Boilerplate, d: PortfolioData, year: int)
    ensures Contains(Document(b, d, year), Container("skills", Join(SkillItem, d.skills)))
    ensures Contains(Document(b, d, year), Container("projects", Join(ProjectItem, d.projects)))
    ensures Contains(Document(b, d, year), Container("experience-timeline", Join(ExperienceItem, d.experience)))
    ensures d.skills == [] ==> Contains(Document(b, d, year), Container("skills", ""))
    ensures d.projects == [] ==> Contains(Document(b, d, year), Container("projects", ""))
    ensures d.experience == [] ==> Contains(Document(b, d, year), Container("experience-timeline", ""))
  {
    hide Concat, Document, Section, Container, SkillItem, ProjectItem, ExperienceItem;
    var i1, i2, i3 := Join(SkillItem, d.skills), Join(ProjectItem, d.projects), Join(ExperienceItem, d.experience);
    ContainsSelf(i1);
    ContainsSelf(i2);
    ContainsSelf(i3);
    InSection("My Skills", "skills", i1, i1);
    InSection("My Projects", "projects", i2, i2);
    InSection("Work Experience", "experience-timeline", i3, i3);
    InDocument(b, d, year, Container("skills", i1));
    InDocument(b, d, year, Container("projects", i2));
    InDocument(b, d, year, Container("experience-timeline", i3));
  }

  /** Every entry's fragment is in the document. */
  lemma FragmentsInDocument(b: Boilerplate, d: PortfolioData, year: int)
    ensures forall s :: s in d.skills ==> Contains(Document(b, d, year), SkillItem(s))
    ensures forall q :: q in d.projects ==> Contains(Document(b, d, year), ProjectItem(q))
    ensures forall e :: e in d.experience ==> Contains(Document(b, d, year), ExperienceItem(e))
  {
    hide Concat, Document, Section, SkillItem, ProjectItem, ExperienceItem;
    forall s | s in d.skills ensures Contains(Document(b, d, year), SkillItem(s)) {
      var i :| 0 <= i < |d.skills| && d.skills[i] == s;
      ContainsSelf(SkillItem(s));
      InJoin(SkillItem, d.skills, i, SkillItem(s));
      InSection("My Skills", "skills", Join(SkillItem, d.skills), SkillItem(s));
      InDocument(b, d, year, SkillItem(s));
    }
    forall q | q in d.projects ensures Contains(Document(b, d, year), ProjectItem(q)) {
      var i :| 0 <= i < |d.projects| && d.projects[i] == q;
      ContainsSelf(ProjectItem(q));
      InJoin(ProjectItem, d.projects, i, ProjectItem(q));
      InSection("My Projects", "projects", Join(ProjectItem, d.projects), ProjectItem(q));
      InDocument(b, d, year, ProjectItem(q));
    }
    forall e | e in d.experience ensures Contains(Document(b, d, year), ExperienceItem(e)) {
      var i :| 0 <= i < |d.experience| && d.experience[i] == e;
      ContainsSelf(ExperienceItem(e));
      InJoin(ExperienceItem, d.experience, i, ExperienceItem(e));
      InSection("Work Experience", "experience-timeline", Join(ExperienceItem, d.experience), ExperienceItem(e));
      InDocument(b, d, year, ExperienceItem(e));
    }
  }

  /**
   * Each project's image shows its image, or the placeholder when the image
   * is empty; its `onerror` handler swaps in that same placeholder.
   */
  lemma ProjectImageSource(b: Boilerplate, d: PortfolioData, year: int)
    ensures forall q :: q in d.projects ==>
              var src := if q.image == "" then ProjectPlaceholder else q.image;
              Contains(Document(b, d, year), Img(src, q.title, "project-image", OnError(ProjectPlaceholder, "Project")))
  {
    hide Concat, Line, Attr, Img, OnError, Document;
    FragmentsInDocument(b, d, year);
    forall q | q in d.projects
      ensures Contains(Document(b, d, year), ProjectImage(q))
    {
      ContainsSelf(ProjectImage(q));
      ContainsPart(ProjectItemPieces(q), 5, ProjectImage(q));
      ContainsTrans(Document(b, d, year), ProjectItem(q), ProjectImage(q));
    }
  }

  /**
   * A skill's fragment prints its name, then its level followed by `%`, and
   * its bar is filled to that width; the level is printed as given, with no
   * clamping, and reads back as the same integer.
   */
  lemma SkillBar(s: Skill)
    ensures Contains(SkillItem(s), Span(ShowInt(s.level) + "%"))
    ensures Contains(SkillItem(s), "<div " + Attr("class", "skill-progress") + " " + Attr("style", "width: " + ShowInt(s.level) + "%") + "></div>")
    ensures Precedes(SkillItem(s), Span(s.name), Span(ShowInt(s.level) + "%"))
    ensures ParseInt(ShowInt(s.level)) == Some(s.level)
  {
    hide Concat, Line, Attr, Span;
    var ps := SkillItemPieces(s);
    ContainsSelf(ps[11]);
    ContainsPart(ps, 11, ps[11]);
    ContainsSelf(ps[19]);
    ContainsPart(ps, 19, ps[19]);
    PartsPrecede(ps, 9, 11);
    ShowIntRoundTrip(s.level);
  }

  /** Skills, projects and experience entries appear in the document in input order. */
  lemma FragmentsInInputOrder(b: Boilerplate, d: PortfolioData, year: int)
    ensures forall i, j :: 0 <= i < j < |d.skills| ==> Precedes(Document(b, d, year), SkillItem(d.skills[i]), SkillItem(d.skills[j]))
    ensures forall i, j :: 0 <= i < j < |d.projects| ==> Precedes(Document(b, d, year), ProjectItem(d.projects[i]), ProjectItem(d.projects[j]))
    ensures forall i, j :: 0 <= i < j < |d.experience| ==> Precedes(Document(b, d, year), ExperienceItem(d.experience[i]), ExperienceItem(d.experience[j]))
  {
    hide Concat, Document, Section, SkillItem, ProjectItem, ExperienceItem;
    forall i, j | 0 <= i < j < |d.skills| ensures Precedes(Document(b, d, year), SkillItem(d.skills[i]), SkillItem(d.skills[j])) {
      JoinOrder(SkillItem, d.skills, i, j);
      PrecedesInSection("My Skills", "skills", Join(SkillItem, d.skills), SkillItem(d.skills[i]), SkillItem(d.skills[j]));
      PrecedesInDocument(b, d, year, SkillItem(d.skills[i]), SkillItem(d.skills[j]));
    }
    forall i, j | 0 <= i < j < |d.projects| ensures Precedes(Document(b, d, year), ProjectItem(d.projects[i]), ProjectItem(d.projects[j])) {
      JoinOrder(ProjectItem, d.projects, i, j);
      PrecedesInSection("My Projects", "projects", Join(ProjectItem, d.projects), ProjectItem(d.projects[i]), ProjectItem(d.projects[j]));
      PrecedesInDocument(b, d, year, ProjectItem(d.projects[i]), ProjectItem(d.projects[j]));
    }
    forall i, j | 0 <= i < j < |d.experience| ensures Precedes(Document(b, d, year), ExperienceItem(d.experience[i]), ExperienceItem(d.experience[j])) {
      JoinOrder(ExperienceItem, d.experience, i, j);
      PrecedesInSection("Work Experience", "experience-timeline", Join(ExperienceItem, d.experience), ExperienceItem(d.experience[i]), ExperienceItem(d.experience[j]));
      PrecedesInDocument(b, d, year, ExperienceItem(d.experience[i]), ExperienceItem(d.experience[j]));
    }
  }

  /** An experience fragment shows date, position, company and description, in that order. */
  lemma ExperienceFieldOrder(e: Experience)
    ensures Precedes(ExperienceItem(e), DateElement(e), PositionElement(e))
    ensures Precedes(ExperienceItem(e), PositionElement(e), CompanyElement(e))
    ensures Precedes(ExperienceItem(e), CompanyElement(e), DescriptionElement(e))
  {
    hide Concat, Line, Attr, DateElement, PositionElement, CompanyElement, DescriptionElement;
    var ps := ExperienceItemPieces(e);
    PartsPrecede(ps, 5, 7);
    PartsPrecede(ps, 7, 9);
    PartsPrecede(ps, 9, 11);
  }

  /** The year fills exactly one slot: two years give the same document but for that slot. */
  lemma YearIsOneSlot(b: Boilerplate, d: PortfolioData, y1: int, y2: int)
    ensures Substituted(Document(b, d, y1), Document(b, d, y2), ShowInt(y1), ShowInt(y2))
  {
    hide Concat, Line, Attr, ShowInt, DocumentHead, ProfileHeader, SkillsSection, ProjectsSection, ExperienceSection;
    var name := d.personal.name;
    var x, y := ShowInt(y1), ShowInt(y2);
    SubstitutedSlot(x, y);
    assert CopyrightPieces(y1, name)[1 := y] == CopyrightPieces(y2, name);
    SubstitutedPart(CopyrightPieces(y1, name), 1, y, x, y);
    assert FooterPieces(y1, name)[4 := Copyright(y2, name)] == FooterPieces(y2, name);
    SubstitutedPart(FooterPieces(y1, name), 4, Copyright(y2, name), x, y);
    assert DocumentPieces(b, d, y1)[6 := Footer(y2, name)] == DocumentPieces(b, d, y2);
    SubstitutedPart(DocumentPieces(b, d, y1), 6, Footer(y2, name), x, y);
  }

  /**
   * One skill ("Testing", 42), no projects, no experience, primary colour
   * "#123456": a bar of width 42%, two empty containers, the colour in the
   * stylesheet.
   */
  lemma SingleSkillExample(b: Boilerplate, d: PortfolioData, year: int)
    requires d.skills == [Skill("Testing", 42)] && d.projects == [] && d.experience == []
    requires d.theme.primaryColor == "#123456"
    ensures Contains(Document(b, d, year), "<div " + Attr("class", "skill-progress") + " " + Attr("style", "width: 42%") + "></div>")
    ensures Contains(Document(b, d, year), Container("projects", ""))
    ensures Contains(Document(b, d, year), Container("experience-timeline", ""))
    ensures Contains(Document(b, d, year), "--primary-color: #123456;")
  {
    hide Concat, Document, SkillItem, Container, Attr, Join;
    var s := Skill("Testing", 42);
    assert ShowInt(42) == "42";
    assert "width: " + ShowInt(s.level) + "%" == "width: 42%";
    SkillBar(s);
    FragmentsInDocument(b, d, year);
    assert s in d.skills;
    ContainsTrans(Document(b, d, year), SkillItem(s), "<div " + Attr("class", "skill-progress") + " " + Attr("style", "width: 42%") + "></div>");
    ListContainers(b, d, year);
    ThemeInStylesheet(b, d, year);
    assert CssVar(ThemeVar(PrimaryColor), ThemeGet(d.theme, PrimaryColor)) == "--primary-color: #123456;";
  }

  // ---------------------------------------------------------------------------
  // The download file name
  // ---------------------------------------------------------------------------

  const FileNameSuffix := "-portfolio.html"

  predicate NoSpace(s: string)
  {
    forall i :: 0 <= i < |s| ==> !IsSpace(s[i])
  }

  /** `s` without its leading whitespace. */
  function SkipSpaces(s: string): (r: string)
    ensures |r| <= |s| && r == s[|s| - |r|..]
    ensures r == [] || !IsSpace(r[0])
    ensures forall i :: 0 <= i < |s| - |r| ==> IsSpace(s[i])
  {
    if s != [] && IsSpace(s[0]) then SkipSpaces(s[1..]) else s
  }

  /** `replace(/\s+/g, "-")`: every maximal run of whitespace becomes one `-`. */
  function Dasherize(s: string): (r: string)
    ensures r == [] <==> s == []
    decreases |s|
  {
    if s == [] then ""
    else if IsSpace(s[0]) then "-" + Dasherize(SkipSpaces(s))
    else [s[0]] + Dasherize(s[1..])
  }

  /** The name the exported document is downloaded under. */
  function DownloadFileName(name: string): (r: string)
    ensures |FileNameSuffix| <= |r| && (|r| == |FileNameSuffix| <==> name == [])
    ensures r[|r| - |FileNameSuffix|..] == FileNameSuffix
  {
    Lower(Dasherize(name)) + FileNameSuffix
  }

  /** The result holds no whitespace. */
  lemma {:induction false} DasherizeHasNoSpace(s: string)
    ensures NoSpace(Dasherize(s))
    decreases |s|
  {
    if s == [] {
    } else if IsSpace(s[0]) {
      DasherizeHasNoSpace(SkipSpaces(s));
    } else {
      DasherizeHasNoSpace(s[1..]);
    }
  }

  /** Text without whitespace is left as it is. */
  lemma {:induction false} DasherizeKeepsPlainText(s: string)
    requires NoSpace(s)
    ensures Dasherize(s) == s
  {
    if s != [] {
      assert !IsSpace(s[0]);
      DasherizeKeepsPlainText(s[1..]);
    }
  }

  lemma {:induction false} SkipSpacesAppend(a: string, t: string)
    requires SkipSpaces(a) != []
    ensures SkipSpaces(a + t) == SkipSpaces(a) + t
  {
    hide IsSpace;
    var s := a + t;
    assert a != [] && s[0] == a[0];
    if IsSpace(a[0]) {
      assert s[1..] == a[1..] + t;
      assert SkipSpaces(a) == SkipSpaces(a[1..]);
      SkipSpacesAppend(a[1..], t);
      assert SkipSpaces(s) == SkipSpaces(s[1..]);
    } else {
      assert SkipSpaces(a) == a;
      assert SkipSpaces(s) == s;
    }
  }

  /** Skipping the leading whitespace of text that ends in a non-space keeps that end. */
  lemma SkipSpacesKeepsLast(a: string)
    requires a != [] && IsSpace(a[0]) && !IsSpace(a[|a| - 1])
    ensures var r := SkipSpaces(a); r != [] && |r| < |a| && r[|r| - 1] == a[|a| - 1]
  {
    hide IsSpace;
  }

  lemma {:induction false} SkipSpacesRun(w: string, b: string)
    requires forall i :: 0 <= i < |w| ==> IsSpace(w[i])
    requires b == [] || !IsSpace(b[0])
    ensures SkipSpaces(w + b) == b
  {
    hide IsSpace;
    if w == [] {
      assert w + b == b;
    } else {
      var s := w + b;
      assert s[0] == w[0] && s[1..] == w[1..] + b;
      assert IsSpace(s[0]);
      SkipSpacesRun(w[1..], b);
      assert SkipSpaces(s) == SkipSpaces(s[1..]);
    }
  }

  /** A character that is not whitespace is kept. */
  lemma DasherizeKeeps(c: char, t: string)
    requires !IsSpace(c)
    ensures Dasherize([c] + t) == [c] + Dasherize(t)
  {
    assert ([c] + t)[1..] == t;
  }

  /** A leading whitespace run becomes one `-`. */
  lemma DasherizeDash(s: string)
    requires s != [] && IsSpace(s[0])
    ensures Dasherize(s) == "-" + Dasherize(SkipSpaces(s))
  {
  }

  /** A leading character that is not whitespace stays in front of a run. */
  lemma DasherizeRunKeep(a: string, w: string, b: string)
    requires a != [] && !IsSpace(a[0])
    requires Dasherize(a[1..] + w + b) == Dasherize(a[1..]) + "-" + Dasherize(b)
    ensures Dasherize(a + w + b) == Dasherize(a) + "-" + Dasherize(b)
  {
    hide IsSpace, Dasherize;
    var a' := a[1..];
    assert a == [a[0]] + a' && a + w + b == [a[0]] + (a' + w + b);
    DasherizeKeeps(a[0], a');
    DasherizeKeeps(a[0], a' + w + b);
    AppendAssoc([a[0]], Dasherize(a') + "-", Dasherize(b));
    AppendAssoc([a[0]], Dasherize(a'), "-");
  }

  /** Leading whitespace before a run is handled on its own. */
  lemma DasherizeRunSkip(a: string, w: string, b: string)
    requires a != [] && IsSpace(a[0]) && SkipSpaces(a) != []
    requires Dasherize(SkipSpaces(a) + w + b) == Dasherize(SkipSpaces(a)) + "-" + Dasherize(b)
    ensures Dasherize(a + w + b) == Dasherize(a) + "-" + Dasherize(b)
  {
    hide IsSpace, Dasherize;
    var r := SkipSpaces(a);
    SkipSpacesAppend(a, w + b);
    assert a + w + b == a + (w + b) && r + (w + b) == r + w + b;
    DasherizeDash(a);
    DasherizeDash(a + w + b);
    AppendAssoc("-", Dasherize(r) + "-", Dasherize(b));
    AppendAssoc("-", Dasherize(r), "-");
  }

  /**
   * A maximal whitespace run between `a` and `b` becomes exactly one `-`, and
   * each side is transformed on its own.
   */
  lemma {:induction false} DasherizeRun(a: string, w: string, b: string)
    requires a == [] || !IsSpace(a[|a| - 1])
    requires |w| > 0 && forall i :: 0 <= i < |w| ==> IsSpace(w[i])
    requires b == [] || !IsSpace(b[0])
    ensures Dasherize(a + w + b) == Dasherize(a) + "-" + Dasherize(b)
    decreases |a|
  {
    hide IsSpace;
    if a == [] {
      assert a + w + b == w + b;
      SkipSpacesRun(w, b);
      DasherizeDash(w + b);
    } else if !IsSpace(a[0]) {
      var a' := a[1..];
      assert a' == [] || a'[|a'| - 1] == a[|a| - 1];
      DasherizeRun(a', w, b);
      DasherizeRunKeep(a, w, b);
    } else {
      var r := SkipSpaces(a);
      SkipSpacesKeepsLast(a);
      DasherizeRun(r, w, b);
      DasherizeRunSkip(a, w, b);
    }
  }

  lemma {:induction false} SkipSpacesLower(s: string)
    ensures SkipSpaces(Lower(s)) == Lower(SkipSpaces(s))
  {
    if s != [] && IsSpace(s[0]) {
      assert Lower(s)[1..] == Lower(s[1..]);
      SkipSpacesLower(s[1..]);
    }
  }

  /** Replacing whitespace and lowering the case can be done in either order. */
  lemma {:induction false} DasherizeLowerCommute(s: string)
    ensures Lower(Dasherize(s)) == Dasherize(Lower(s))
    decreases |s|
  {
    if s != [] {
      var l := Lower(s);
      if IsSpace(s[0]) {
        SkipSpacesLower(s);
        DasherizeLowerCommute(SkipSpaces(s));
        LowerConcat("-", Dasherize(SkipSpaces(s)));
      } else {
        assert l[1..] == Lower(s[1..]);
        DasherizeLowerCommute(s[1..]);
        LowerConcat([s[0]], Dasherize(s[1..]));
      }
    }
  }

  /**
   * The file name has no whitespace and no upper-case ASCII letter, and ends
   * with "-portfolio.html".
   */
  lemma DownloadFileNameShape(name: string)
    ensures var r := DownloadFileName(name);
            && |r| >= |FileNameSuffix|
            && r[|r| - |FileNameSuffix|..] == FileNameSuffix
            && NoSpace(r)
            && forall i :: 0 <= i < |r| - |FileNameSuffix| ==> !IsUpper(r[i])
  {
    hide IsSpace, Dasherize;
    var d := Dasherize(name);
    var body := Lower(d);
    var r := body + FileNameSuffix;
    assert r == DownloadFileName(name);
    assert r[|body|..] == FileNameSuffix;
    DasherizeHasNoSpace(name);
    SuffixHasNoSpace();
    forall i | 0 <= i < |r| ensures !IsSpace(r[i]) {
      if i < |body| {
        assert r[i] == LowerChar(d[i]) && !IsSpace(d[i]);
      } else {
        assert r[i] == FileNameSuffix[i - |body|];
      }
    }
  }

  lemma SuffixHasNoSpace()
    ensures NoSpace(FileNameSuffix)
  {
  }

  lemma DasherizeExample()
    ensures Dasherize("Jane Doe") == "Jane-Doe"
  {
    hide Dasherize, Lower;
    assert "Jane Doe" == "Jane" + " " + "Doe";
    assert NoSpace("Jane") && NoSpace("Doe");
    DasherizeRun("Jane", " ", "Doe");
    DasherizeKeepsPlainText("Jane");
    DasherizeKeepsPlainText("Doe");
  }

  lemma LowerExample()
    ensures Lower("Jane-Doe") == "jane-doe"
  {
    hide Dasherize, IsSpace;
    LowerConcat("Jane", "-Doe");
  }

  /** "Jane Doe" is downloaded as "jane-doe-portfolio.html". */
  lemma DownloadFileNameExample()
    ensures DownloadFileName("Jane Doe") == "jane-doe-portfolio.html"
  {
    hide Dasherize, Lower, IsSpace;
    DasherizeExample();
    LowerExample();
  }
  // ---------------------------------------------------------------------------
  // Fixed text of the template
  // ---------------------------------------------------------------------------

  /** The page's boilerplate, line by line. */
  const PageBoilerplate := Boilerplate(
    "\n<html lang=\"en\">"
      + "\n<head>"
      + "\n    <meta charset=\"UTF-8\">"
      + "\n    <meta name=\"viewport\" content=\"width=device-width, initial-scale=1.0\">"
      + "\n    ",
    "\n    <style>"
      + "\n        ",
    "\n        "
      + "\n        * {"
      + "\n            margin: 0;"
      + "\n            padding: 0;"
      + "\n            box-sizing: border-box;"
      + "\n        }"
      + "\n        "
      + "\n        body {"
      + "\n            font-family: -apple-system, BlinkMacSystemFont, \"Segoe UI\", Roboto, Helvetica, Arial, sans-serif;"
      + "\n            background-color: var(--background-color);"
      + "\n            color: var(--text-color);"
      + "\n            line-height: 1.6;"
      + "\n        }"
      + "\n        "
      + "\n        .container {"
      + "\n            max-width: 1200px;"
      + "\n            margin: 0 auto;"
      + "\n            padding: 0 20px;"
      + "\n        }"
      + "\n        "
      + "\n        header {"
      + "\n            padding: 40px 0;"
      + "\n            text-align: center;"
      + "\n        }"
      + "\n        "
      + "\n        .profile {"
      + "\n            display: flex;"
      + "\n            flex-direction: column;"
      + "\n            align-items: center;"
      + "\n            margin-bottom: 60px;"
      + "\n        }"
      + "\n        "
      + "\n        @media (min-width: 768px) {"
      + "\n            .profile {"
      + "\n                flex-direction: row;"
      + "\n                align-items: flex-start;"
      + "\n                text-align: left;"
      + "\n            }"
      + "\n        }"
      + "\n        "
      + "\n        .profile-image {"
      + "\n            width: 200px;"
      + "\n            height: 200px;"
      + "\n            border-radius: 50%;"
      + "\n            border: 4px solid var(--primary-color);"
      + "\n            object-fit: cover;"
      + "\n            margin-bottom: 20px;"
      + "\n        }"
      + "\n        "
      + "\n        @media (min-width: 768px) {"
      + "\n            .profile-image {"
      + "\n                margin-right: 40px;"
      + "\n                margin-bottom: 0;"
      + "\n            }"
      + "\n        }"
      + "\n        "
      + "\n        .profile-content {"
      + "\n            flex: 1;"
      + "\n        }"
      + "\n        "
      + "\n        h1 {"
      + "\n            font-size: 2.5rem;"
      + "\n            margin-bottom: 10px;"
      + "\n            color: var(--text-color);"
      + "\n        }"
      + "\n        "
      + "\n        h2 {"
      + "\n            font-size: 1.5rem;"
      + "\n            margin-bottom: 20px;"
      + "\n            color: var(--accent-color);"
      + "\n            font-weight: 500;"
      + "\n        }"
      + "\n        "
      + "\n        .section-title {"
      + "\n            font-size: 2rem;"
      + "\n            margin-bottom: 30px;"
      + "\n            text-align: center;"
      + "\n            color: var(--primary-color);"
      + "\n        }"
      + "\n        "
      + "\n        section {"
      + "\n            margin-bottom: 60px;"
      + "\n        }"
      + "\n        "
      + "\n        .contact-info {"
      + "\n            display: flex;"
      + "\n            flex-wrap: wrap;"
      + "\n            gap: 15px;"
      + "\n            margin-top: 20px;"
      + "\n            justify-content: center;"
      + "\n        }"
      + "\n        "
      + "\n        @media (min-width: 768px) {"
      + "\n            .contact-info {"
      + "\n                justify-content: flex-start;"
      + "\n            }"
      + "\n        }"
      + "\n        "
      + "\n        .contact-item {"
      + "\n            display: flex;"
      + "\n            align-items: center;"
      + "\n            gap: 5px;"
      + "\n        }"
      + "\n        "
      + "\n        .social-links {"
      + "\n            display: flex;"
      + "\n            gap: 15px;"
      + "\n            margin-top: 20px;"
      + "\n            justify-content: center;"
      + "\n        }"
      + "\n        "
      + "\n        @media (min-width: 768px) {"
      + "\n            .social-links {"
      + "\n                justify-content: flex-start;"
      + "\n            }"
      + "\n        }"
      + "\n        "
      + "\n        .social-link {"
      + "\n            display: inline-flex;"
      + "\n            align-items: center;"
      + "\n            justify-content: center;"
      + "\n            width: 40px;"
      + "\n            height: 40px;"
      + "\n            border-radius: 50%;"
      + "\n            border: 1px solid var(--text-color);"
      + "\n            color: var(--text-color);"
      + "\n            text-decoration: none;"
      + "\n        }"
      + "\n        "
      + "\n        .skills {"
      + "\n            max-width: 800px;"
      + "\n            margin: 0 auto;"
      + "\n        }"
      + "\n        "
      + "\n        .skill-item {"
      + "\n            margin-bottom: 20px;"
      + "\n        }"
      + "\n        "
      + "\n        .skill-info {"
      + "\n            display: flex;"
      + "\n            justify-content: space-between;"
      + "\n            margin-bottom: 5px;"
      + "\n        }"
      + "\n        "
      + "\n        .skill-bar {"
      + "\n            height: 10px;"
      + "\n            background-color: rgba(0,0,0,0.1);"
      + "\n            border-radius: 5px;"
      + "\n            overflow: hidden;"
      + "\n        }"
      + "\n        "
      + "\n        ",
    "\n        "
      + "\n        .projects {"
      + "\n            display: grid;"
      + "\n            grid-template-columns: repeat(auto-fill, minmax(300px, 1fr));"
      + "\n            gap: 30px;"
      + "\n            max-width: 1200px;"
      + "\n            margin: 0 auto;"
      + "\n            justify-content: center;"
      + "\n        }"
      + "\n        "
      + "\n        .project-card {"
      + "\n            border-radius: 8px;"
      + "\n            overflow: hidden;"
      + "\n            box-shadow: 0 4px 6px rgba(0,0,0,0.1);"
      + "\n            background-color: white;"
      + "\n        }"
      + "\n        "
      + "\n        .project-image {"
      + "\n            width: 100%;"
      + "\n            height: 200px;"
      + "\n            object-fit: cover;"
      + "\n        }"
      + "\n        "
      + "\n        .project-content {"
      + "\n            padding: 20px;"
      + "\n        }"
      + "\n        "
      + "\n        .project-title {"
      + "\n            font-size: 1.25rem;"
      + "\n            margin-bottom: 10px;"
      + "\n        }"
      + "\n        "
      + "\n        .project-description {"
      + "\n            margin-bottom: 15px;"
      + "\n            font-size: 0.9rem;"
      + "\n        }"
      + "\n        "
      + "\n        .project-link {"
      + "\n            display: inline-block;"
      + "\n            padding: 8px 16px;"
      + "\n            background-color: var(--accent-color);"
      + "\n            color: white;"
      + "\n            text-decoration: none;"
      + "\n            border-radius: 4px;"
      + "\n            font-weight: 500;"
      + "\n        }"
      + "\n        "
      + "\n        .experience-timeline {"
      + "\n            max-width: 800px;"
      + "\n            margin: 0 auto;"
      + "\n            position: relative;"
      + "\n        }"
      + "\n        "
      + "\n        .experience-timeline::before {"
      + "\n            content: '';"
      + "\n            position: absolute;"
      + "\n            top: 0;"
      + "\n            bottom: 0;"
      + "\n            left: 0;"
      + "\n            width: 2px;"
      + "\n            background-color: var(--primary-color);"
      + "\n        }"
      + "\n        "
      + "\n        .experience-item {"
      + "\n            position: relative;"
      + "\n            padding-left: 30px;"
      + "\n            margin-bottom: 40px;"
      + "\n        }"
      + "\n        "
      + "\n        .experience-item::before {"
      + "\n            content: '';"
      + "\n            position: absolute;"
      + "\n            left: -4px;"
      + "\n            top: 0;"
      + "\n            width: 10px;"
      + "\n            height: 10px;"
      + "\n            border-radius: 50%;"
      + "\n            background-color: var(--primary-color);"
      + "\n        }"
      + "\n        "
      + "\n        .experience-date {"
      + "\n            color: var(--accent-color);"
      + "\n            margin-bottom: 5px;"
      + "\n        }"
      + "\n        "
      + "\n        .experience-position {"
      + "\n            font-size: 1.25rem;"
      + "\n            font-weight: bold;"
      + "\n            margin-bottom: 5px;"
      + "\n        }"
      + "\n        "
      + "\n        .experience-company {"
      + "\n            font-size: 1.1rem;"
      + "\n            margin-bottom: 10px;"
      + "\n        }"
      + "\n        "
      + "\n        footer {"
      + "\n            text-align: center;"
      + "\n            padding: 20px 0;"
      + "\n            border-top: 1px solid rgba(0,0,0,0.1);"
      + "\n            margin-top: 60px;"
      + "\n        }",
    "<svg xmlns=\"http://www.w3.org/2000/svg\" width=\"16\" height=\"16\" viewBox=\"0 0 24 24\" fill=\"none\" stroke=\"currentColor\" strokeWidth=\"2\" strokeLinecap=\"round\" strokeLinejoin=\"round\">"
      + "\n                                <rect width=\"20\" height=\"16\" x=\"2\" y=\"4\" rx=\"2\"></rect>"
      + "\n                                <path d=\"m22 7-8.97 5.7a1.94 1.94 0 0 1-2.06 0L2 7\"></path>"
      + "\n                            </svg>",
    "<svg xmlns=\"http://www.w3.org/2000/svg\" width=\"16\" height=\"16\" viewBox=\"0 0 24 24\" fill=\"none\" stroke=\"currentColor\" strokeWidth=\"2\" strokeLinecap=\"round\" strokeLinejoin=\"round\">"
      + "\n                                <path d=\"M22 16.92v3a2 2 0 0 1-2.18 2 19.79 19.79 0 0 1-8.63-3.07 19.5 19.5 0 0 1-6-6 19.79 19.79 0 0 1-3.07-8.67A2 2 0 0 1 4.11 2h3a2 2 0 0 1 2 1.72 12.84 12.84 0 0 0 .7 2.81 2 2 0 0 1-.45 2.11L8.09 9.91a16 16 0 0 0 6 6l1.27-1.27a2 2 0 0 1 2.11-.45 12.84 12.84 0 0 0 2.81.7A2 2 0 0 1 22 16.92z\"></path>"
      + "\n                            </svg>",
    "<svg xmlns=\"http://www.w3.org/2000/svg\" width=\"16\" height=\"16\" viewBox=\"0 0 24 24\" fill=\"none\" stroke=\"currentColor\" strokeWidth=\"2\" strokeLinecap=\"round\" strokeLinejoin=\"round\">"
      + "\n                                <path d=\"M20 10c0 6-8 12-8 12s-8-6-8-12a8 8 0 0 1 16 0Z\"></path>"
      + "\n                                <circle cx=\"12\" cy=\"10\" r=\"3\"></circle>"
      + "\n                            </svg>",
    "<svg xmlns=\"http://www.w3.org/2000/svg\" width=\"20\" height=\"20\" viewBox=\"0 0 24 24\" fill=\"none\" stroke=\"currentColor\" strokeWidth=\"2\" strokeLinecap=\"round\" strokeLinejoin=\"round\">"
      + "\n                                <path d=\"M16 8a6 6 0 0 1 6 6v7h-4v-7a2 2 0 0 0-2-2 2 2 0 0 0-2 2v7h-4v-7a6 6 0 0 1 6-6z\"></path>"
      + "\n                                <rect width=\"4\" height=\"12\" x=\"2\" y=\"9\"></rect>"
      + "\n                                <circle cx=\"4\" cy=\"4\" r=\"2\"></circle>"
      + "\n                            </svg>",
    "<svg xmlns=\"http://www.w3.org/2000/svg\" width=\"20\" height=\"20\" viewBox=\"0 0 24 24\" fill=\"none\" stroke=\"currentColor\" strokeWidth=\"2\" strokeLinecap=\"round\" strokeLinejoin=\"round\">"
      + "\n                                <path d=\"M15 22v-4a4.8 4.8 0 0 0-1-3.5c3 0 6-2 6-5.5.08-1.25-.27-2.48-1-3.5.28-1.15.28-2.35 0-3.5 0 0-1 0-3 1.5-2.64-.5-5.36-.5-8 0C6 2 5 2 5 2c-.3 1.15-.3 2.35 0 3.5A5.403 5.403 0 0 0 4 9c0 3.5 3 5.5 6 5.5-.39.49-.68 1.05-.85 1.65-.17.6-.22 1.23-.15 1.85v4\"></path>"
      + "\n                                <path d=\"M9 18c-4.51 2-5-2-7-2\"></path>"
      + "\n                            </svg>",
    "<svg xmlns=\"http://www.w3.org/2000/svg\" width=\"20\" height=\"20\" viewBox=\"0 0 24 24\" fill=\"none\" stroke=\"currentColor\" strokeWidth=\"2\" strokeLinecap=\"round\" strokeLinejoin=\"round\">"
      + "\n                                <path d=\"M22 4s-.7 2.1-2 3.4c1.6 10-9.4 17.3-18 11.6 2.2.1 4.4-.6 6-2C3 15.5.5 9.6 3 5c2.2 2.6 5.6 4.1 9 4-.9-4.2 4-6.6 7-3.8 1.1 0 3-1.2 3-1.2z\"></path>"
      + "\n                            </svg>")
}
