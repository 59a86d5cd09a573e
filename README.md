# Portfolio creator: the editor and the HTML export, in Dafny

The portfolio creator is a client-side web application. A person fills in a
portfolio in an editor page: personal details, skills, projects, work
experience and a colour theme. A preview page then exports the whole portfolio
as one static HTML file. This project models the two parts of the program that
have behaviour worth stating:

- **The export** (module `Preview`, `preview.dfy`). `GenerateHtml(d, year)` is
  the page's `generateHTML`. It is a single template in which the user's strings
  stand verbatim, with nothing escaped. Each list becomes one fragment per entry,
  joined with the empty string. An empty image reference falls back to a
  placeholder. The four theme colours are the values of the stylesheet's custom
  properties. `DownloadFileName(name)` is the name of the downloaded file.
- **The editor** (module `Dashboard`, `dashboard.dfy`). Class `Editor` holds the
  stored `PortfolioData` in its field `data`. It has one method per event handler
  of the editor page. Each method states the whole new value of `data`: which
  component changed, and that nothing else did.

Supporting modules:

- `Portfolio` (`portfolio.dfy`) holds the data model. It gives field keys with
  get/set functions for each record, the default entries the "add" buttons
  append, and the seed data.
- `JsBuiltins` (`jsbuiltins.dfy`) models the JavaScript built-ins the code relies
  on: `${n}` for an integer, `Number(text)`, `map(f).join("")`, `splice(i, 1)`,
  the `\s` class and `toLowerCase`.
- `Text` (`text.dfy`) defines what it means for a piece of text to occur in a
  document, to come before another, or to be the only difference between two
  documents.

The fixed text of the page does not depend on the data: the head, the
stylesheet and the SVG icons. It is the value `PageBoilerplate` of type
`Boilerplate`. `GenerateHtml` is `Document(PageBoilerplate, d, year)`, and
every lemma is proved for `Document(b, d, year)` with any boilerplate `b`, so it
holds for the page's own. The year is a parameter, because the code reads it
from the clock.

## Model

| member | source | states |
|---|---|---|
| Portfolio.PersonalSet | types/portfolio.ts:2-15 | writing one personal or social-media field sets that field to the value and leaves every other field as it was |
| Portfolio.PersonalExtensional | types/portfolio.ts:2-15 | two personal records that agree on every field are equal, so "every other field unchanged" means "nothing else changed" |
| Portfolio.ProjectSet | types/portfolio.ts:20-25 | writing one project field sets it and keeps the other three |
| Portfolio.ExperienceSet | types/portfolio.ts:26-31 | writing one experience field sets it and keeps the other three |
| Portfolio.ThemeSet | types/portfolio.ts:32-37 | writing one colour sets it and keeps the other three |
| Portfolio.SeedSkills | app/dashboard/page.tsx:40-44 | the seed holds three skills, each with a level within the range input's bounds 0 to 100 |
| Portfolio.SeedData | app/dashboard/page.tsx:25-79 | the data the editor starts from when nothing is stored: the placeholder profile, three skills, two projects, two experience entries and the default theme |
| JsBuiltins.ShowIntRoundTrip | app/preview/page.tsx:439-442 | the decimal text a template literal prints for an integer reads back, via `Number`, as that integer |
| JsBuiltins.ShowInt | app/preview/page.tsx:439-442 | `${n}` prints a nonempty text that begins with `-` exactly when the number is negative |
| JsBuiltins.ParseInt | app/dashboard/page.tsx:212 | `Number(value)` reads a value exactly when the text is an optional minus sign followed by decimal digits |
| JsBuiltins.ShowIntInjective | app/preview/page.tsx:439 | different levels print as different text |
| JsBuiltins.JoinConcat | app/preview/page.tsx:433-447 | `map(f).join("")` over a concatenation is the concatenation of the two joins |
| JsBuiltins.JoinAt | app/preview/page.tsx:433-447 | the join of a list is the join of the entries before `i`, then entry `i`'s fragment, then the join of the entries after it |
| JsBuiltins.Join | app/preview/page.tsx:433-447 | `map(f).join("")` puts nothing between the fragments: an empty list joins to the empty text, a single entry to its own fragment |
| JsBuiltins.RemoveAt | app/dashboard/page.tsx:229-230 | `splice(i, 1)` on an in-range index keeps the entries before `i`, shifts the ones after it down by one, and shortens the list by one |
| JsBuiltins.RemoveAtMultiset | app/dashboard/page.tsx:229-230 | the removed entry together with the remaining ones are exactly the original entries |
| JsBuiltins.Lower | app/preview/page.tsx:87 | `toLowerCase` keeps the length and lowers each ASCII capital, leaving every other character |
| JsBuiltins.LowerIdempotent | app/preview/page.tsx:87 | lowering twice is lowering once |
| JsBuiltins.IsSpace | app/preview/page.tsx:87 | the characters `\s` matches; none of them is `-` or an ASCII capital, so the dash inserted for a run and lowering never create or remove whitespace |
| Preview.GenerateHtml | app/preview/page.tsx:94-502 | `generateHTML`: the template literal filled with the data and the year, around the page's fixed text |
| Preview.ExportedPage | app/preview/page.tsx:94-502 | the exported page starts with the doctype line, ends with the closing `html` tag, has the name in its title and the copyright line in its footer |
| Preview.DocumentShape | app/preview/page.tsx:95-502 | the document starts with the doctype line and ends with the closing `html` tag |
| Preview.DocumentTitle | app/preview/page.tsx:101 | the title element is the name followed by " - Portfolio" |
| Preview.DocumentCopyright | app/preview/page.tsx:495 | the footer's copyright line is in the document, with the year before the name |
| Preview.YearIsOneSlot | app/preview/page.tsx:495 | the documents for two years are the same text except for the printed year, so the year is the only input not taken from the data |
| Preview.ThemeInStylesheet | app/preview/page.tsx:103-108 | for each of the four colours, `--<name>-color: <value>;` with the value verbatim is in the document |
| Preview.ThemeColourIsOneSlot | app/preview/page.tsx:103-108 | changing one theme colour changes the document at exactly one place, where the old value becomes the new one |
| Preview.SkillBarsUsePrimaryColor | app/preview/page.tsx:260-263 | the `.skill-progress` rule fills the bar with `var(--primary-color)` |
| Preview.ProfileImageSource | app/preview/page.tsx:372-377 | the profile image's `src` is the photo, or `https://placehold.co/300x300` when the photo is empty; its `onerror` swaps in that placeholder |
| Preview.ImageSourceIsOneSlot | app/preview/page.tsx:372-377 | an image element differs for two sources only in its `src` value |
| Preview.PhotoIsOneSlot | app/preview/page.tsx:373 | changing the photo changes the document only in the profile image's `src` |
| Preview.ProjectImageSource | app/preview/page.tsx:458-463 | each project's image `src` is its image, or `https://placehold.co/300x200` when that is empty, with the same placeholder in `onerror` |
| Preview.ListContainers | app/preview/page.tsx:432-448 | each list's container holds exactly the join of its entries' fragments; an empty list leaves the container empty |
| Preview.FragmentsInDocument | app/preview/page.tsx:433-490 | every skill, project and experience entry's fragment is in the document |
| Preview.FragmentsInInputOrder | app/preview/page.tsx:433-490 | for `i < j`, entry `i`'s fragment comes before entry `j`'s, in all three lists |
| Preview.SkillBar | app/preview/page.tsx:436-444 | a skill fragment shows the name and then `<level>%`, and its bar has `style="width: <level>%"`; the level is printed as given, with no clamping, and reads back as the same integer |
| Preview.ExperienceFieldOrder | app/preview/page.tsx:482-487 | an experience fragment shows date, position, company and description, in that order |
| Preview.SingleSkillExample | app/preview/page.tsx:433-448 | one skill at level 42 and no projects or experience gives a bar of width `42%`, two empty containers, and the primary colour in the stylesheet |
| Preview.Dasherize | app/preview/page.tsx:87 | `replace(/\s+/g, "-")` gives the empty text exactly for the empty name |
| Preview.DownloadFileName | app/preview/page.tsx:87 | the download name ends with `-portfolio.html`, and is that suffix alone exactly when the name is empty |
| Preview.DasherizeHasNoSpace | app/preview/page.tsx:87 | after `replace(/\s+/g, "-")` no whitespace is left |
| Preview.DasherizeKeepsPlainText | app/preview/page.tsx:87 | text without whitespace is left as it is |
| Preview.DasherizeRun | app/preview/page.tsx:87 | a maximal whitespace run between two parts becomes exactly one `-`, and each part is transformed on its own |
| Preview.DasherizeLowerCommute | app/preview/page.tsx:87 | replacing whitespace and lowering the case give the same result in either order |
| Preview.DownloadFileNameShape | app/preview/page.tsx:87 | the file name ends with `-portfolio.html`, has no whitespace, and has no ASCII capital before that suffix |
| Preview.DownloadFileNameExample | app/preview/page.tsx:87 | "Jane Doe" is downloaded as `jane-doe-portfolio.html` |
| Dashboard.IndexOf | app/dashboard/page.tsx:185-186 | the first position of a character, or `None` exactly when it does not occur |
| Dashboard.SplitDotted | app/dashboard/page.tsx:186 | `const [parent, child] = name.split(".")` gives the text before the first dot and the text after it up to the next dot or the end of the name |
| Dashboard.ParsePersonalKey | app/dashboard/page.tsx:182-206 | the field a form input's name designates; the designated field's name begins the input name, and a plain field is designated only by a name without a dot |
| Dashboard.PersonalKeyRoundTrip | app/dashboard/page.tsx:182-206 | the input name of every personal and social-media field designates that field |
| Dashboard.ParsePersonalKeyInverse | app/dashboard/page.tsx:182-206 | a plain name designates a field only if it is that field's name; a dotted one designates a social field only if it is `socialMedia.<field>` or that followed by a dot and further segments, which `split` drops |
| Dashboard.ThemeFieldRoundTrip | app/dashboard/page.tsx:314-323 | each colour's input name designates that colour |
| Dashboard.ParseThemeField | app/dashboard/page.tsx:314-323 | a name designates a colour only if it is that colour's name |
| Dashboard.SkillSet | app/dashboard/page.tsx:208-213 | a name change stores the text and keeps the level; a level change stores the integer `Number(value)` reads from the text and keeps the name |
| Dashboard.SkillLevelRoundTrip | app/dashboard/page.tsx:208-213 | a level written as decimal text is stored as that integer, and the name is kept |
| Dashboard.CheckUpload | app/dashboard/page.tsx:102-124 | no file does nothing; a size over `5 * 1024 * 1024` is refused before any read; a size within it is read, and the read's text is stored unless the read fails |
| Dashboard.UploadLimitBoundary | app/dashboard/page.tsx:108 | exactly 5 MiB is accepted and one byte more is refused |
| Dashboard.Editor.constructor | app/dashboard/page.tsx:25-79 | the editor starts from the stored data when there is some, and from the seed data otherwise |
| Dashboard.Editor.UploadProfileImage | app/dashboard/page.tsx:102-138 | a successful upload replaces only `personal.photo`; any other outcome leaves the data unchanged |
| Dashboard.Editor.UploadProjectImage | app/dashboard/page.tsx:141-180 | a successful upload replaces only `projects[index].image`; any other outcome leaves the data unchanged |
| Dashboard.Editor.ChangePersonalInfo | app/dashboard/page.tsx:182-206 | only the designated personal or social-media field changes; a name that designates none leaves the data unchanged |
| Dashboard.Editor.ChangeSkill | app/dashboard/page.tsx:208-219 | only the named field of skill `index` changes; the list keeps its length and the other entries |
| Dashboard.Editor.AddSkill | app/dashboard/page.tsx:221-226 | `{name: "New Skill", level: 50}` is appended and nothing else changes |
| Dashboard.Editor.DeleteSkill | app/dashboard/page.tsx:228-236 | the skills become `s[..i] + s[i+1..]` and nothing else changes |
| Dashboard.Editor.ChangeProject | app/dashboard/page.tsx:238-249 | only field `f` of project `index` changes |
| Dashboard.Editor.AddProject | app/dashboard/page.tsx:251-264 | the default project is appended and nothing else changes |
| Dashboard.Editor.DeleteProject | app/dashboard/page.tsx:266-274 | the projects become `s[..i] + s[i+1..]` and nothing else changes |
| Dashboard.Editor.ChangeExperience | app/dashboard/page.tsx:276-287 | only field `f` of experience entry `index` changes |
| Dashboard.Editor.AddExperience | app/dashboard/page.tsx:289-302 | the default experience entry is appended and nothing else changes |
| Dashboard.Editor.DeleteExperience | app/dashboard/page.tsx:304-312 | the experience list becomes `s[..i] + s[i+1..]` and nothing else changes |
| Dashboard.Editor.ChangeTheme | app/dashboard/page.tsx:314-323 | only the designated colour changes; a name that designates none leaves the data unchanged |
| Dashboard.AddThenDeleteRestores | app/dashboard/page.tsx:221-236 | deleting the entry just appended gives back the list as it was |
| Dashboard.ProjectSetSameValue | app/dashboard/page.tsx:238-249 | writing a project field's current value back changes nothing |
| Dashboard.ExperienceSetSameValue | app/dashboard/page.tsx:276-287 | writing an experience field's current value back changes nothing |
| Dashboard.PersonalSetSameValue | app/dashboard/page.tsx:182-206 | writing a personal field's current value back changes nothing |
| Dashboard.ThemeSetSameValue | app/dashboard/page.tsx:314-323 | writing a colour's current value back changes nothing |
| Dashboard.PersonalSetTwice | app/dashboard/page.tsx:182-206 | of two writes to the same field, the later one wins |
| Dashboard.PersonalSetCommute | app/dashboard/page.tsx:182-206 | writes to two different fields can be made in either order |
| Dashboard.DeleteSkillDropsFragment | app/dashboard/page.tsx:228-236 | after deleting skill `i`, the exported skills container loses exactly that skill's fragment and keeps the others in order |
| Dashboard.AddProjectAppendsFragment | app/dashboard/page.tsx:251-264 | after adding a project, the exported projects container gains the default project's fragment after all the others |

## Left out

- Rendering of the editor and preview pages (JSX, tabs, cards, toasts) is left out. It has no logic beyond calling the handlers. The outcome returned by the upload methods stands for which toast is shown.
- Persistence in the browser's local storage is left out, because it is an external store. The constructor takes the stored value as a parameter. hooks/use-local-storage.ts is not part of this model.
- `fileToBase64` and the asynchronous `FileReader` are left out, because they are a browser API. A file is its size plus the data URL its read yields, or `None` when the read fails. Concurrency between overlapping uploads is not modelled.
- The DOM download (`Blob`, object URL, anchor click) is left out. Only the document text and the file name are modelled.
- The live preview's runtime `onError` image swapping is browser event behaviour. Only the `onerror` attribute text written into the export is modelled.
- `new Date().getFullYear()` reads the clock, so the year is a parameter of `GenerateHtml`.
- Dashboard.Editor.ChangeSkill: requires the level text to be integer text, as the range input sends it. `Number` on other text (NaN, fractions, surrounding blanks) is not modelled.
- Dashboard.Editor.ChangePersonalInfo: JavaScript adds a stray key for a name that designates no field, replaces a text field by an object for a dotted name whose parent is not `socialMedia`, and replaces the whole `socialMedia` object by the text for the plain name `socialMedia`. The model leaves the data unchanged in all three cases, because such values have no place in the datatype. The form sends only the ten designated names.
- Dashboard.Editor.ChangeTheme: an unknown name leaves the data unchanged, for the same reason.
- Dashboard.Editor.ChangeProject, Dashboard.Editor.ChangeExperience: take the field as a `ProjectField` / `ExperienceField`. The form passes only those four string constants each.
- Deleting, changing and uploading at an index require `0 <= index < length`. JavaScript's `splice` and index assignment outside that range are not modelled.
- JsBuiltins.ShowInt, JsBuiltins.ParseInt: stated for every integer. JavaScript numbers are doubles: `${n}` prints exponent notation from 10^21 on, and `Number` reads integers exactly only up to 2^53. `JsBuiltins.ShowIntRoundTrip` and `Dashboard.SkillLevelRoundTrip` therefore hold in the program only within those bounds. Levels come from a range input between 0 and 100, and the year from the clock, so no value the page produces reaches them.
- `\s` is modelled as the fixed set of JavaScript whitespace code points in `JsBuiltins.IsSpace`. `toLowerCase` is modelled on ASCII capitals only. Other Unicode case mappings are not modelled.
- The fixed text of the page (head, stylesheet rules, SVG icons) is held verbatim in `PageBoilerplate`. Properties are proved for any boilerplate, so none of them depends on what that text says.
- The export interpolates user text without escaping, and so does the model. A name holding `<` or `"` therefore changes the document's markup, as it does in the program.
