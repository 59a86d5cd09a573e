/**
 * The portfolio editor. The page keeps one `PortfolioData` value in state and
 * replaces it from its event handlers; `Editor` holds that value in `data` and
 * has one method per handler. Every method states the whole new value of
 * `data`: exactly one component changes, as the handler's object spread says,
 * and the lemmas below state what that change does to the rendered page.
 */
module Dashboard {
  import opened Portfolio
  import opened JsBuiltins
  import opened Text
  import Preview

  // ---------------------------------------------------------------------------
  // Field names as the form sends them
  // ---------------------------------------------------------------------------

  /** The first position of `c` in `s`, if any. */
  function IndexOf(s: string, c: char): (r: Option<nat>)
    ensures r.Some? ==> r.value < |s| && s[r.value] == c && c !in s[..r.value]
    ensures r.None? ==> c !in s
  {
    if s == [] then None
    else if s[0] == c then Some(0)
    else match IndexOf(s[1..], c)
      case None => None
      case Some(i) => assert s[1..][..i] == s[1..i + 1]; Some(i + 1)
  }

  lemma {:induction false} IndexOfNone(s: string, c: char)
    requires c !in s
    ensures IndexOf(s, c) == None
  {
    if s != [] {
      assert s[0] != c && c !in s[1..];
      IndexOfNone(s[1..], c);
    }
  }

  /** The first `c` after a prefix free of `c` is the one that ends the prefix. */
  lemma {:induction false} IndexOfAfter(a: string, c: char, b: string)
    requires c !in a
    ensures IndexOf(a + [c] + b, c) == Some(|a|)
  {
    var s := a + [c] + b;
    if a != [] {
      assert s[0] == a[0] != c && s[1..] == a[1..] + [c] + b;
      IndexOfAfter(a[1..], c, b);
    }
  }

  /**
   * `const [parent, child] = name.split(".")` on a name holding a dot: the text
   * before the first dot and the text between the first and the second dot.
   */
  function SplitDotted(name: string, dot: nat): (r: (string, string))
    requires dot < |name| && name[dot] == '.' && '.' !in name[..dot]
    ensures r.0 == name[..dot] && '.' !in r.0 && '.' !in r.1
    ensures r.0 + "." + r.1 <= name
    ensures |r.0| + 1 + |r.1| == |name| || name[|r.0| + 1 + |r.1|] == '.'
  {
    var rest := name[dot + 1..];
    match IndexOf(rest, '.')
    case None =>
      assert name == name[..dot] + "." + rest;
      (name[..dot], rest)
    case Some(j) =>
      assert name[..dot] + "." + rest[..j] == name[..dot + 1 + j];
      assert name[dot + 1 + j] == rest[j];
      (name[..dot], rest[..j])
  }

  function PersonalFieldName(f: PersonalField): (r: string)
    ensures '.' !in r
  {
    match f
    case Name => "name"
    case Title => "title"
    case About => "about"
    case Photo => "photo"
    case Email => "email"
    case Phone => "phone"
    case Location => "location"
  }

  function ParsePersonalField(name: string): (r: Option<PersonalField>)
    ensures r.Some? ==> PersonalFieldName(r.value) == name
  {
    if name == "name" then Some(Name)
    else if name == "title" then Some(Title)
    else if name == "about" then Some(About)
    else if name == "photo" then Some(Photo)
    else if name == "email" then Some(Email)
    else if name == "phone" then Some(Phone)
    else if name == "location" then Some(Location)
    else None
  }

  function SocialFieldName(f: SocialField): (r: string)
    ensures '.' !in r
  {
    match f
    case Linkedin => "linkedin"
    case Github => "github"
    case Twitter => "twitter"
  }

  function ParseSocialField(name: string): (r: Option<SocialField>)
    ensures r.Some? ==> SocialFieldName(r.value) == name
  {
    if name == "linkedin" then Some(Linkedin)
    else if name == "github" then Some(Github)
    else if name == "twitter" then Some(Twitter)
    else None
  }

  const SocialParent := "socialMedia"

  lemma PersonalFieldRoundTrip(f: PersonalField)
    ensures ParsePersonalField(PersonalFieldName(f)) == Some(f)
  {
    match f
    case Name =>
    case Title =>
    case About =>
    case Photo =>
    case Email =>
    case Phone =>
    case Location =>
  }

  lemma SocialFieldRoundTrip(f: SocialField)
    ensures ParseSocialField(SocialFieldName(f)) == Some(f)
  {
    match f
    case Linkedin =>
    case Github =>
    case Twitter =>
  }

  /** The `name` attribute of the form input that edits a personal field. */
  function PersonalKeyName(k: PersonalKey): string
  {
    match k
    case Own(f) => PersonalFieldName(f)
    case Social(f) => SocialParent + "." + SocialFieldName(f)
  }

  /**
   * The personal field a form input's name designates: a plain name is a
   * field of `personal`, a dotted one `parent.child` is field `child` of
   * `personal.socialMedia` when `parent` is "socialMedia". Any other name
   * designates no text field of the model.
   */
  function ParsePersonalKey(name: string): (r: Option<PersonalKey>)
    ensures r.Some? ==> PersonalKeyName(r.value) <= name
    ensures r.Some? && r.value.Own? ==> '.' !in name
  {
    match IndexOf(name, '.')
    case None =>
      (match ParsePersonalField(name)
       case Some(f) => Some(Own(f))
       case None => None)
    case Some(dot) =>
      var (parent, child) := SplitDotted(name, dot);
      if parent != SocialParent then None
      else match ParseSocialField(child)
        case Some(f) => Some(Social(f))
        case None => None
  }

  /** Every personal field has a name the parser maps back to it. */
  lemma PersonalKeyRoundTrip(k: PersonalKey)
    ensures ParsePersonalKey(PersonalKeyName(k)) == Some(k)
  {
    hide ParsePersonalField, ParseSocialField, PersonalFieldName, SocialFieldName;
    match k
    case Own(f) =>
      IndexOfNone(PersonalFieldName(f), '.');
      PersonalFieldRoundTrip(f);
    case Social(f) =>
      var child := SocialFieldName(f);
      assert '.' !in SocialParent;
      IndexOfAfter(SocialParent, '.', child);
      var n := PersonalKeyName(k);
      assert n == SocialParent + ['.'] + child;
      assert n[..11] == SocialParent && n[12..] == child;
      IndexOfNone(child, '.');
      SocialFieldRoundTrip(f);
  }

  /**
   * A name designates field `k` only if it is `k`'s own name, or, for a social
   * field, that name followed by further dotted segments, which `split` drops.
   */
  lemma ParsePersonalKeyInverse(name: string, k: PersonalKey)
    requires ParsePersonalKey(name) == Some(k)
    ensures k.Own? ==> name == PersonalKeyName(k)
    ensures k.Social? ==> name == PersonalKeyName(k) || PersonalKeyName(k) + "." <= name
  {
    match IndexOf(name, '.')
    case None =>
    case Some(dot) =>
      var (parent, child) := SplitDotted(name, dot);
      assert parent == SocialParent && ParseSocialField(child) == Some(k.social);
      var key := PersonalKeyName(k);
      assert key == parent + "." + child && key <= name;
      if |key| < |name| {
        assert name[|key|] == '.';
        assert key + "." == name[..|key| + 1];
      } else {
        assert name == key;
      }
  }

  function ThemeFieldName(f: ThemeField): string
  {
    match f
    case PrimaryColor => "primaryColor"
    case TextColor => "textColor"
    case BackgroundColor => "backgroundColor"
    case AccentColor => "accentColor"
  }

  /** The colour a theme input's name designates. */
  function ParseThemeField(name: string): (r: Option<ThemeField>)
    ensures r.Some? ==> ThemeFieldName(r.value) == name
  {
    if name == "primaryColor" then Some(PrimaryColor)
    else if name == "textColor" then Some(TextColor)
    else if name == "backgroundColor" then Some(BackgroundColor)
    else if name == "accentColor" then Some(AccentColor)
    else None
  }

  lemma ThemeFieldRoundTrip(f: ThemeField)
    ensures ParseThemeField(ThemeFieldName(f)) == Some(f)
  {
    match f
    case PrimaryColor =>
    case TextColor =>
    case BackgroundColor =>
    case AccentColor =>
  }

  // ---------------------------------------------------------------------------
  // Skills: the name is stored as text, the level as `Number(value)`
  // ---------------------------------------------------------------------------

  datatype SkillField = SkillName | SkillLevel

  function SkillSet(s: Skill, f: SkillField, value: string): (r: Skill)
    requires f == SkillLevel ==> IsIntegerText(value)
    ensures f == SkillName ==> r.name == value && r.level == s.level
    ensures f == SkillLevel ==> ParseInt(value) == Some(r.level) && r.name == s.name
  {
    match f
    case SkillName => s.(name := value)
    case SkillLevel => s.(level := ParseInt(value).value)
  }

  /** A level written by the range input reads back as the level it shows. */
  lemma SkillLevelRoundTrip(s: Skill, n: int)
    ensures SkillSet(s, SkillLevel, ShowInt(n)).level == n
    ensures SkillSet(s, SkillLevel, ShowInt(n)).name == s.name
  {
    ShowIntRoundTrip(n);
  }

  // ---------------------------------------------------------------------------
  // Uploads
  // ---------------------------------------------------------------------------

  /** The largest accepted upload: `5 * 1024 * 1024` bytes. */
  const MaxUploadSize: nat := 5 * 1024 * 1024

  /**
   * The file the input holds: its size in bytes and what reading it as a data
   * URL yields, or `None` when the reader fails.
   */
  datatype FileInfo = FileInfo(size: nat, dataUrl: Option<string>)

  /** How an upload ends: which toast the page shows, and the stored text. */
  datatype UploadOutcome = NoFile | TooLarge | ReadFailed | Uploaded(dataUrl: string)

  /**
   * No file: nothing happens. A file over the limit is refused before it is
   * read; one within it is read, and a failed read reports an error.
   */
  function CheckUpload(file: Option<FileInfo>): (r: UploadOutcome)
    ensures r == NoFile <==> file.None?
    ensures r == TooLarge <==> file.Some? && file.value.size > MaxUploadSize
    ensures r.Uploaded? <==> file.Some? && file.value.size <= MaxUploadSize && file.value.dataUrl.Some?
    ensures r.Uploaded? ==> r.dataUrl == file.value.dataUrl.value
  {
    match file
    case None => NoFile
    case Some(f) =>
      if f.size > MaxUploadSize then TooLarge
      else match f.dataUrl
        case None => ReadFailed
        case Some(url) => Uploaded(url)
  }

  /** Exactly 5 MiB passes the gate; one byte more is refused. */
  lemma UploadLimitBoundary(url: string)
    ensures CheckUpload(Some(FileInfo(5242880, Some(url)))) == Uploaded(url)
    ensures CheckUpload(Some(FileInfo(5242881, Some(url)))) == TooLarge
  {
  }

  // ---------------------------------------------------------------------------
  // The editor
  // ---------------------------------------------------------------------------

  class Editor {
    var data: PortfolioData

    /** The stored value when there is one, the seed otherwise. */
    constructor(stored: Option<PortfolioData>)
      ensures data == (if stored.Some? then stored.value else SeedData())
    {
      hide SeedData;
      data := if stored.Some? then stored.value else SeedData();
    }

    method UploadProfileImage(file: Option<FileInfo>) returns (outcome: UploadOutcome)
      modifies this
      ensures outcome == CheckUpload(file)
      ensures outcome.Uploaded? ==> data == old(data).(personal := old(data).personal.(photo := outcome.dataUrl))
      ensures !outcome.Uploaded? ==> data == old(data)
    {
      outcome := CheckUpload(file);
      if outcome.Uploaded? {
        data := data.(personal := data.personal.(photo := outcome.dataUrl));
      }
    }

    method UploadProjectImage(file: Option<FileInfo>, index: nat) returns (outcome: UploadOutcome)
      requires index < |data.projects|
      modifies this
      ensures outcome == CheckUpload(file)
      ensures outcome.Uploaded? ==>
                data == old(data).(projects := old(data.projects)[index := old(data.projects)[index].(image := outcome.dataUrl)])
      ensures !outcome.Uploaded? ==> data == old(data)
    {
      outcome := CheckUpload(file);
      if outcome.Uploaded? {
        var updated := data.projects;
        updated := updated[index := updated[index].(image := outcome.dataUrl)];
        data := data.(projects := updated);
      }
    }

    /** A name that designates no text field leaves the data as it was. */
    method ChangePersonalInfo(name: string, value: string)
      modifies this
      ensures ParsePersonalKey(name).Some? ==>
                data == old(data).(personal := PersonalSet(old(data.personal), ParsePersonalKey(name).value, value))
      ensures ParsePersonalKey(name).None? ==> data == old(data)
    {
      match ParsePersonalKey(name)
      case Some(k) =>
        data := data.(personal := PersonalSet(data.personal, k, value));
      case None =>
    }

    method ChangeSkill(index: nat, field: SkillField, value: string)
      requires index < |data.skills|
      requires field == SkillLevel ==> IsIntegerText(value)
      modifies this
      ensures data == old(data).(skills := old(data.skills)[index := SkillSet(old(data.skills)[index], field, value)])
    {
      var updated := data.skills;
      updated := updated[index := SkillSet(updated[index], field, value)];
      data := data.(skills := updated);
    }

    method AddSkill()
      modifies this
      ensures data == old(data).(skills := old(data.skills) + [NewSkill])
    {
      data := data.(skills := data.skills + [NewSkill]);
    }

    method DeleteSkill(index: nat)
      requires index < |data.skills|
      modifies this
      ensures data == old(data).(skills := old(data.skills)[..index] + old(data.skills)[index + 1..])
    {
      var updated := data.skills;
      updated := RemoveAt(updated, index);
      assert updated == data.skills[..index] + data.skills[index + 1..];
      data := data.(skills := updated);
    }

    method ChangeProject(index: nat, field: ProjectField, value: string)
      requires index < |data.projects|
      modifies this
      ensures data == old(data).(projects := old(data.projects)[index := ProjectSet(old(data.projects)[index], field, value)])
    {
      var updated := data.projects;
      updated := updated[index := ProjectSet(updated[index], field, value)];
      data := data.(projects := updated);
    }

    method AddProject()
      modifies this
      ensures data == old(data).(projects := old(data.projects) + [NewProject])
    {
      data := data.(projects := data.projects + [NewProject]);
    }

    method DeleteProject(index: nat)
      requires index < |data.projects|
      modifies this
      ensures data == old(data).(projects := old(data.projects)[..index] + old(data.projects)[index + 1..])
    {
      var updated := data.projects;
      updated := RemoveAt(updated, index);
      assert updated == data.projects[..index] + data.projects[index + 1..];
      data := data.(projects := updated);
    }

    method ChangeExperience(index: nat, field: ExperienceField, value: string)
      requires index < |data.experience|
      modifies this
      ensures data == old(data).(experience := old(data.experience)[index := ExperienceSet(old(data.experience)[index], field, value)])
    {
      var updated := data.experience;
      updated := updated[index := ExperienceSet(updated[index], field, value)];
      data := data.(experience := updated);
    }

    method AddExperience()
      modifies this
      ensures data == old(data).(experience := old(data.experience) + [NewExperience])
    {
      data := data.(experience := data.experience + [NewExperience]);
    }

    method DeleteExperience(index: nat)
      requires index < |data.experience|
      modifies this
      ensures data == old(data).(experience := old(data.experience)[..index] + old(data.experience)[index + 1..])
    {
      var updated := data.experience;
      updated := RemoveAt(updated, index);
      assert updated == data.experience[..index] + data.experience[index + 1..];
      data := data.(experience := updated);
    }

    /** A name that designates no colour leaves the data as it was. */
    method ChangeTheme(name: string, value: string)
      modifies this
      ensures ParseThemeField(name).Some? ==>
                data == old(data).(theme := ThemeSet(old(data.theme), ParseThemeField(name).value, value))
      ensures ParseThemeField(name).None? ==> data == old(data)
    {
      match ParseThemeField(name)
      case Some(f) =>
        data := data.(theme := ThemeSet(data.theme, f, value));
      case None =>
    }
  }

  // ---------------------------------------------------------------------------
  // What the edits do, stated on the values the methods produce
  // ---------------------------------------------------------------------------

  /** Deleting the last entry right after adding it restores the list. */
  lemma {:induction false} AddThenDeleteRestores<T>(xs: seq<T>, x: T)
    ensures RemoveAt(xs + [x], |xs|) == xs
  {
    var ys := RemoveAt(xs + [x], |xs|);
    assert |ys| == |xs|;
    forall j | 0 <= j < |xs| ensures ys[j] == xs[j] {
      assert ys[j] == (xs + [x])[j];
    }
  }

  /** Writing a field's current value back is no change at all. */
  lemma ProjectSetSameValue(p: Project, f: ProjectField)
    ensures ProjectSet(p, f, ProjectGet(p, f)) == p
  {
    ProjectExtensional(ProjectSet(p, f, ProjectGet(p, f)), p);
  }

  lemma ExperienceSetSameValue(e: Experience, f: ExperienceField)
    ensures ExperienceSet(e, f, ExperienceGet(e, f)) == e
  {
    ExperienceExtensional(ExperienceSet(e, f, ExperienceGet(e, f)), e);
  }

  lemma PersonalSetSameValue(p: Personal, k: PersonalKey)
    ensures PersonalSet(p, k, PersonalGet(p, k)) == p
  {
    PersonalExtensional(PersonalSet(p, k, PersonalGet(p, k)), p);
  }

  lemma ThemeSetSameValue(t: Theme, f: ThemeField)
    ensures ThemeSet(t, f, ThemeGet(t, f)) == t
  {
    ThemeExtensional(ThemeSet(t, f, ThemeGet(t, f)), t);
  }

  /** Of two writes to the same field, the later one wins. */
  lemma PersonalSetTwice(p: Personal, k: PersonalKey, v: string, w: string)
    ensures PersonalSet(PersonalSet(p, k, v), k, w) == PersonalSet(p, k, w)
  {
    PersonalExtensional(PersonalSet(PersonalSet(p, k, v), k, w), PersonalSet(p, k, w));
  }

  /** Writes to two different fields can be made in either order. */
  lemma PersonalSetCommute(p: Personal, j: PersonalKey, k: PersonalKey, v: string, w: string)
    requires j != k
    ensures PersonalSet(PersonalSet(p, j, v), k, w) == PersonalSet(PersonalSet(p, k, w), j, v)
  {
    PersonalExtensional(PersonalSet(PersonalSet(p, j, v), k, w), PersonalSet(PersonalSet(p, k, w), j, v));
  }

  /**
   * Deleting skill `i` removes its fragment from the skills container and keeps
   * the fragments before and after it, in order.
   */
  lemma DeleteSkillDropsFragment(skills: seq<Skill>, i: nat)
    requires i < |skills|
    ensures var rest := RemoveAt(skills, i);
            Join(Preview.SkillItem, skills)
            == Join(Preview.SkillItem, rest[..i]) + Preview.SkillItem(skills[i]) + Join(Preview.SkillItem, rest[i..])
  {
    var rest := RemoveAt(skills, i);
    assert rest[..i] == skills[..i];
    assert rest[i..] == skills[i + 1..];
    JoinAt(Preview.SkillItem, skills, i);
  }

  /** Adding an entry appends its fragment after all the others. */
  lemma AddProjectAppendsFragment(projects: seq<Project>)
    ensures Join(Preview.ProjectItem, projects + [NewProject])
            == Join(Preview.ProjectItem, projects) + Preview.ProjectItem(NewProject)
  {
    hide Preview.ProjectItem;
    JoinConcat(Preview.ProjectItem, projects, [NewProject]);
    assert Join(Preview.ProjectItem, [NewProject]) == Preview.ProjectItem(NewProject) by {
      JoinAt(Preview.ProjectItem, [NewProject], 0);
    }
  }
}
