/** Where the icon script writes each icon: the prompt file's section names,
    the directory each section goes to, and the rule that turns an item name
    into a file name. */
module IconFiles {
  import opened GameTypes
  import opened IconText

  const PNG: string := ".png"
  const SPRITES_ROOT: string := "public/sprites"

  /** How a section turns an item name into a file name. */
  datatype FilenameRule =
    | LowerName      // the lower-cased name
    | SlugName       // the slug of the name
    | UiMapped       // a fixed file for known UI pieces, else the slug
    | NavMapped      // a fixed file for known pages, else "nav-" and the slug
    | StatusMapped   // a fixed file for known states, else "status-" and the slug

  datatype CategoryConfig = CategoryConfig(dir: string, rule: FilenameRule)

  /** The fixed file names of the UI pieces, without ".png"; a name not
      listed has none. */
  function UiFixedStem(name: string): Option<string>
  {
    if name == "Panel Background" then Some("panel")
    else if name == "Primary Button - Normal" then Some("btn-primary")
    else if name == "Primary Button - Hover" then Some("btn-primary-hover")
    else if name == "Primary Button - Pressed" then Some("btn-primary-pressed")
    else if name == "Primary Button - Disabled" then Some("btn-primary-disabled")
    else if name == "Secondary Button - Normal" then Some("btn-secondary")
    else if name == "Danger Button - Normal" then Some("btn-danger")
    else if name == "Progress Bar - Empty" then Some("progress-empty")
    else if name == "Progress Bar - Fill" then Some("progress-fill")
    else if name == "Tab - Active" then Some("tab-active")
    else if name == "Tab - Inactive" then Some("tab-inactive")
    else if name == "Input Field" then Some("input")
    else if name == "Tooltip Frame" then Some("tooltip")
    else None
  }

  /** The fixed file names of the navigation pages, without "nav-" and ".png". */
  function NavFixedStem(name: string): Option<string>
  {
    if name == "Dashboard/Home" then Some("dashboard")
    else if name == "Buildings" then Some("buildings")
    else if name == "Research" then Some("research")
    else if name == "Shipyard" then Some("shipyard")
    else if name == "Fleet" then Some("fleet")
    else None
  }

  /** The fixed file names of the status markers, without "status-" and ".png". */
  function StatusFixedStem(name: string): Option<string>
  {
    if name == "Timer/Clock" then Some("timer")
    else if name == "Checkmark/Complete" then Some("check")
    else if name == "Cancel/X" then Some("cancel")
    else if name == "Lock" then Some("lock")
    else None
  }

  /** The seven known section names; any other name has no configuration. */
  function ConfigFor(category: string): Option<CategoryConfig>
  {
    if category == "Resource Icons" then Some(CategoryConfig("resources", LowerName))
    else if category == "Building Icons" then Some(CategoryConfig("buildings", SlugName))
    else if category == "Ship Sprites" then Some(CategoryConfig("ships", SlugName))
    else if category == "UI Components" then Some(CategoryConfig("ui", UiMapped))
    else if category == "Navigation Icons" then Some(CategoryConfig("icons", NavMapped))
    else if category == "Status Icons" then Some(CategoryConfig("icons", StatusMapped))
    else if category == "Optional Assets" then Some(CategoryConfig("optional", SlugName))
    else None
  }

  predicate EndsWith(s: string, suffix: string)
  {
    |suffix| <= |s| && s[|s| - |suffix|..] == suffix
  }

  predicate StartsWith(s: string, prefix: string)
  {
    |prefix| <= |s| && s[..|prefix|] == prefix
  }

  /** The slug file name shared by every rule but the resource one. */
  function SlugFile(name: string): string
  {
    Slug(name) + PNG
  }

  /** The file name an item of a section with this rule is written to. */
  function Filename(rule: FilenameRule, name: string): string
  {
    match rule
    case LowerName => ToLower(name) + PNG
    case SlugName => SlugFile(name)
    case UiMapped => MappedTail(UiFixedStem(name), name)
    case NavMapped => "nav-" + MappedTail(NavFixedStem(name), name)
    case StatusMapped => "status-" + MappedTail(StatusFixedStem(name), name)
  }

  /** The output path: the sprites root, the section's directory, the file. */
  function OutputPath(config: CategoryConfig, name: string): string
  {
    SPRITES_ROOT + "/" + config.dir + "/" + Filename(config.rule, name)
  }

  // ---- Properties ----

  /** Exactly the seven section names have a configuration, and the
      directories are the ones the sprites tree uses. */
  lemma ConfigForMeaning(category: string)
    ensures ConfigFor(category).Some? <==>
      category in {"Resource Icons", "Building Icons", "Ship Sprites", "UI Components",
                   "Navigation Icons", "Status Icons", "Optional Assets"}
    ensures ConfigFor(category).Some? ==>
      ConfigFor(category).value.dir in {"resources", "buildings", "ships", "ui", "icons", "optional"}
    ensures ConfigFor(category).Some? && ConfigFor(category).value.dir == "icons" <==>
      category == "Navigation Icons" || category == "Status Icons"
  {
  }

  lemma AppendEndsWith(s: string, suffix: string)
    ensures EndsWith(s + suffix, suffix)
  {
    assert (s + suffix)[|s|..] == suffix;
  }

  lemma PrependKeepsEnd(prefix: string, s: string, suffix: string)
    requires EndsWith(s, suffix)
    ensures EndsWith(prefix + s, suffix) && StartsWith(prefix + s, prefix)
  {
    assert (prefix + s)[|prefix + s| - |suffix|..] == s[|s| - |suffix|..];
    assert (prefix + s)[..|prefix|] == prefix;
  }

  /** The file name in a mapped section before its prefix: the fixed stem
      and ".png", or the slug file. */
  function MappedTail(stem: Option<string>, name: string): string
  {
    match stem
    case Some(f) => f + PNG
    case None => SlugFile(name)
  }

  lemma MappedTailIsPng(stem: Option<string>, name: string)
    ensures EndsWith(MappedTail(stem, name), PNG)
  {
    match stem
    case Some(f) => AppendEndsWith(f, PNG);
    case None => AppendEndsWith(Slug(name), PNG);
  }

  /** Every rule produces a ".png" file name, and the navigation and status
      sections always put their prefix in front, fixed name or not. */
  lemma FilenameIsPng(rule: FilenameRule, name: string)
    ensures EndsWith(Filename(rule, name), PNG)
    ensures rule == NavMapped ==> StartsWith(Filename(rule, name), "nav-")
    ensures rule == StatusMapped ==> StartsWith(Filename(rule, name), "status-")
  {
    match rule
    case LowerName => AppendEndsWith(ToLower(name), PNG);
    case SlugName => AppendEndsWith(Slug(name), PNG);
    case UiMapped => MappedTailIsPng(UiFixedStem(name), name);
    case NavMapped =>
      MappedTailIsPng(NavFixedStem(name), name);
      PrependKeepsEnd("nav-", MappedTail(NavFixedStem(name), name), PNG);
    case StatusMapped =>
      MappedTailIsPng(StatusFixedStem(name), name);
      PrependKeepsEnd("status-", MappedTail(StatusFixedStem(name), name), PNG);
  }

  /** A listed name takes its fixed file; any other name takes the slug,
      with "nav-" or "status-" in front in those two sections. */
  lemma FilenameRules(name: string)
    ensures UiFixedStem(name).Some? ==> Filename(UiMapped, name) == UiFixedStem(name).value + PNG
    ensures UiFixedStem(name).None? ==> Filename(UiMapped, name) == Slug(name) + PNG
    ensures NavFixedStem(name).Some? ==> Filename(NavMapped, name) == "nav-" + NavFixedStem(name).value + PNG
    ensures NavFixedStem(name).None? ==> Filename(NavMapped, name) == "nav-" + Slug(name) + PNG
    ensures StatusFixedStem(name).Some? ==> Filename(StatusMapped, name) == "status-" + StatusFixedStem(name).value + PNG
    ensures StatusFixedStem(name).None? ==> Filename(StatusMapped, name) == "status-" + Slug(name) + PNG
    ensures Filename(SlugName, name) == Slug(name) + PNG
    ensures Filename(LowerName, name) == ToLower(name) + PNG
  {
    assert "nav-" + (Slug(name) + PNG) == "nav-" + Slug(name) + PNG;
    assert "status-" + (Slug(name) + PNG) == "status-" + Slug(name) + PNG;
    if NavFixedStem(name).Some? {
      assert "nav-" + (NavFixedStem(name).value + PNG) == "nav-" + NavFixedStem(name).value + PNG;
    }
    if StatusFixedStem(name).Some? {
      assert "status-" + (StatusFixedStem(name).value + PNG) == "status-" + StatusFixedStem(name).value + PNG;
    }
  }

  /** "Dashboard/Home" is written to a file without the slash, and a
      listed name overrides its slug ("Timer/Clock" would slug to
      "status-timerclock.png"). */
  lemma FixedNamesOverrideSlug()
    ensures Filename(NavMapped, "Dashboard/Home") == "nav-dashboard.png"
    ensures Filename(StatusMapped, "Timer/Clock") == "status-timer.png"
  {
  }

  /** A slug file name has only [a-z0-9-] before ".png", so it never holds a
      path separator or a space. */
  lemma SlugFileCharset(name: string)
    ensures var f := SlugFile(name);
            EndsWith(f, PNG) && AllSlugChars(f[..|f| - |PNG|])
    ensures '/' !in Slug(name) && ' ' !in Slug(name)
  {
    var f := SlugFile(name);
    AppendEndsWith(Slug(name), PNG);
    assert f[..|f| - |PNG|] == Slug(name);
  }

  /** Case does not matter to the slug rules: a name and its lower case
      map to the same file. */
  lemma SlugFileIgnoresCase(name: string)
    ensures SlugFile(ToLower(name)) == SlugFile(name)
  {
    ToLowerIdempotent(name);
  }

  /** Lower-casing twice changes nothing more. */
  lemma ToLowerIdempotent(s: string)
    ensures ToLower(ToLower(s)) == ToLower(s)
  {
    ToLowerMeaning(s);
    forall i | 0 <= i < |s|
      ensures !IsUpper(ToLower(s)[i])
    {
    }
    LowerKeepsLower(ToLower(s));
  }

  /** The path is the sprites root, the directory and the file, each
      separated by one "/". */
  lemma OutputPathShape(config: CategoryConfig, name: string)
    ensures StartsWith(OutputPath(config, name), SPRITES_ROOT + "/" + config.dir + "/")
    ensures EndsWith(OutputPath(config, name), Filename(config.rule, name))
    ensures EndsWith(OutputPath(config, name), PNG)
  {
    var pre := SPRITES_ROOT + "/" + config.dir + "/";
    var f := Filename(config.rule, name);
    assert OutputPath(config, name) == pre + f;
    assert (pre + f)[..|pre|] == pre;
    AppendEndsWith(pre, f);
    FilenameIsPng(config.rule, name);
    assert (pre + f)[|pre + f| - |PNG|..] == f[|f| - |PNG|..];
  }
}
