/** The content script (content.js): game-title detection on the streaming
    page, the de-duplicated game-change report, the forwarding of worker
    messages to the page engine and the start-up merge of the active profile
    into the configuration sent to the engine. */
module Content {
  import opened Wrappers
  import opened Strings
  import opened Dict
  import opened Settings
  import opened Gamepad

  // ---------------------------------------------------------------------
  // Title from a page element
  // ---------------------------------------------------------------------

  /** A selector found an element whose trimmed text is non-empty. */
  predicate Filled(candidate: Option<string>) {
    candidate.Some? && Trim(candidate.value) != ""
  }

  /** Position of the first selector at or after `from` that yields a title, or -1. */
  function FirstFilled(candidates: seq<Option<string>>, from: nat): (i: int)
    ensures i == -1 || from <= i < |candidates|
    ensures i >= 0 ==> Filled(candidates[i]) && forall j :: from <= j < i ==> !Filled(candidates[j])
    ensures i == -1 ==> forall j :: from <= j < |candidates| ==> !Filled(candidates[j])
    decreases |candidates| - from
  {
    if from >= |candidates| then -1
    else if Filled(candidates[from]) then from
    else FirstFilled(candidates, from + 1)
  }

  // ---------------------------------------------------------------------
  // Title from the document title
  // ---------------------------------------------------------------------

  const StoreTitle := "Xbox Cloud Gaming"

  /** The document-title rule: the trimmed text before the first `|`, unless
      there is no `|` or that text is the service's own name. */
  function TitleFromPageTitle(pageTitle: string): (r: Option<string>)
    ensures r.None? <==> '|' !in pageTitle || Trim(BeforeFirst(pageTitle, '|')) == StoreTitle
    ensures r.Some? ==> '|' !in r.value && r.value != StoreTitle
    ensures r.Some? ==> r.value == [] || (!IsJsSpace(r.value[0]) && !IsJsSpace(r.value[|r.value| - 1]))
  {
    if '|' in pageTitle then
      var first := BeforeFirst(pageTitle, '|');
      var title := Trim(first);
      TrimKeepsCharacters(first);
      if title != StoreTitle then Some(title) else None
    else None
  }

  // ---------------------------------------------------------------------
  // Title from the address
  // ---------------------------------------------------------------------

  /** The literal part of `/\/play\/games\/([^/?]+)/i`. */
  const PlayPath := "/play/games/"

  predicate IsSlugChar(c: char) {
    c != '/' && c != '?'
  }

  /** The pattern matches at `i`: the path, in any letter case, then at
      least one slug character. */
  predicate MatchAt(url: string, i: nat) {
    i + |PlayPath| < |url| && ToLower(url[i..i + |PlayPath|]) == PlayPath && IsSlugChar(url[i + |PlayPath|])
  }

  /** Leftmost position at or after `from` where the pattern matches, or -1. */
  function FirstMatchFrom(url: string, from: nat): (i: int)
    ensures i == -1 || from <= i < |url|
    ensures i >= 0 ==> MatchAt(url, i) && forall j :: from <= j < i ==> !MatchAt(url, j)
    ensures i == -1 ==> forall j :: from <= j ==> !MatchAt(url, j)
    decreases |url| - from
  {
    if from + |PlayPath| >= |url| then -1
    else if MatchAt(url, from) then from
    else FirstMatchFrom(url, from + 1)
  }

  /** The capture `[^/?]+`: the longest run of slug characters at the start. */
  function SlugRun(s: string): (r: string)
    ensures r <= s
    ensures forall k :: 0 <= k < |r| ==> IsSlugChar(r[k])
    ensures |r| < |s| ==> !IsSlugChar(s[|r|])
  {
    if s == [] || !IsSlugChar(s[0]) then []
    else [s[0]] + SlugRun(s[1..])
  }

  /** The slug the address pattern captures, if it matches anywhere. */
  function UrlSlug(url: string): (r: Option<string>)
    ensures r.Some? ==> |r.value| >= 1 && forall k :: 0 <= k < |r.value| ==> IsSlugChar(r.value[k])
    ensures r.None? <==> forall j :: 0 <= j ==> !MatchAt(url, j)
  {
    var i := FirstMatchFrom(url, 0);
    if i == -1 then None else Some(SlugRun(url[i + |PlayPath|..]))
  }

  /** `\w`: an ASCII letter, digit or underscore. */
  predicate IsWordChar(c: char) {
    IsUpperAscii(c) || IsLowerAscii(c) || ('0' <= c <= '9') || c == '_'
  }

  /** `replace(/-/g, ' ')` */
  function DashesToSpaces(s: string): (r: string)
    ensures |r| == |s| && '-' !in r
    ensures forall i :: 0 <= i < |s| ==> r[i] == if s[i] == '-' then ' ' else s[i]
  {
    seq(|s|, i requires 0 <= i < |s| => if s[i] == '-' then ' ' else s[i])
  }

  /** A word character at a word boundary: at the start, or after a non-word character. */
  predicate WordStart(s: string, i: nat)
    requires i < |s|
  {
    IsWordChar(s[i]) && (i == 0 || !IsWordChar(s[i - 1]))
  }

  /** `replace(/\b\w/g, c => c.toUpperCase())` */
  function CapitalizeWords(s: string): (r: string)
    ensures |r| == |s|
    ensures forall i :: 0 <= i < |s| ==> r[i] == if WordStart(s, i) then UpperChar(s[i]) else s[i]
  {
    seq(|s|, i requires 0 <= i < |s| => if WordStart(s, i) then UpperChar(s[i]) else s[i])
  }

  /** The readable title made from a slug. */
  function SlugToTitle(slug: string): string {
    CapitalizeWords(DashesToSpaces(slug))
  }

  lemma UpperCharKeepsWordness(c: char)
    ensures IsWordChar(UpperChar(c)) == IsWordChar(c)
    ensures LowerChar(UpperChar(c)) == LowerChar(c)
    ensures !IsLowerAscii(UpperChar(c))
  {
  }

  /** The title has the slug's length and no `-`, differs from the slug with
      dashes made spaces only in letter case, and starts every word with a
      character that is not a lower-case letter. */
  lemma SlugTitleShape(slug: string)
    ensures var t := SlugToTitle(slug);
      && |t| == |slug|
      && '-' !in t
      && ToLower(t) == ToLower(DashesToSpaces(slug))
      && forall i :: 0 <= i < |t| && WordStart(t, i) ==> !IsLowerAscii(t[i])
  {
    var d := DashesToSpaces(slug);
    var t := SlugToTitle(slug);
    forall i | 0 <= i < |t|
      ensures t[i] != '-'
      ensures LowerChar(t[i]) == LowerChar(d[i])
      ensures IsWordChar(t[i]) == IsWordChar(d[i])
    {
      UpperCharKeepsWordness(d[i]);
    }
    forall i | 0 <= i < |t| && WordStart(t, i)
      ensures !IsLowerAscii(t[i])
    {
      assert WordStart(d, i);
      UpperCharKeepsWordness(d[i]);
    }
  }

  /** Making a title from a title changes nothing. */
  lemma SlugTitleIdempotent(slug: string)
    ensures SlugToTitle(SlugToTitle(slug)) == SlugToTitle(slug)
  {
    var t := SlugToTitle(slug);
    var d := DashesToSpaces(slug);
    SlugTitleShape(slug);
    assert DashesToSpaces(t) == t;
    forall i | 0 <= i < |t|
      ensures SlugToTitle(t)[i] == t[i]
    {
      UpperCharKeepsWordness(d[i]);
      if i > 0 {
        UpperCharKeepsWordness(d[i - 1]);
      }
      if WordStart(t, i) {
        assert WordStart(d, i);
      }
    }
  }

  /** The address rule as written. */
  function TitleFromUrl(url: string): (r: Option<string>)
    ensures r.Some? ==> r.value != [] && '-' !in r.value
    ensures r.None? <==> UrlSlug(url).None?
  {
    match UrlSlug(url)
    case None => None
    case Some(slug) =>
      SlugTitleShape(slug);
      Some(SlugToTitle(slug))
  }

  /** `detectCurrentGame` as a value: the first filled selector, then the
      document-title rule, then the address rule, else none. */
  function DetectedTitle(candidates: seq<Option<string>>, pageTitle: string, url: string): Option<string> {
    var i := FirstFilled(candidates, 0);
    if i >= 0 then Some(Trim(candidates[i].value))
    else if TitleFromPageTitle(pageTitle).Some? then TitleFromPageTitle(pageTitle)
    else TitleFromUrl(url)
  }

  /** `detectCurrentGame`; `candidates` holds the text each selector's
      element has, in selector order, none where no element is found. */
  method DetectCurrentGame(candidates: seq<Option<string>>, pageTitle: string, url: string)
    returns (title: Option<string>)
    ensures title == DetectedTitle(candidates, pageTitle, url)
    ensures FirstFilled(candidates, 0) >= 0 ==> title.Some? && title.value != ""
  {
    for i := 0 to |candidates|
      invariant FirstFilled(candidates, 0) == FirstFilled(candidates, i)
    {
      var element := candidates[i];
      if element.Some? && Trim(element.value) != "" {
        return Some(Trim(element.value));
      }
    }
    title := FromTitleOrUrl(pageTitle, url);
  }

  /** The document-title rule, then the address rule. */
  method FromTitleOrUrl(pageTitle: string, url: string) returns (title: Option<string>)
    ensures TitleFromPageTitle(pageTitle).Some? ==> title == TitleFromPageTitle(pageTitle)
    ensures TitleFromPageTitle(pageTitle).None? ==> title == TitleFromUrl(url)
  {
    if '|' in pageTitle {
      var first := BeforeFirst(pageTitle, '|');
      if Trim(first) != StoreTitle {
        return Some(Trim(first));
      }
    }

    var slug := UrlSlug(url);
    if slug.Some? {
      return Some(SlugToTitle(slug.value));
    }
    return None;
  }

  // ---------------------------------------------------------------------
  // Game-change report
  // ---------------------------------------------------------------------

  /** The `GAME_CHANGED` message sent to the worker. */
  datatype GameChanged = GameChanged(gameTitle: Option<string>, previousGame: Option<string>)

  /** The title last reported. */
  class GameWatcher {
    var currentGameTitle: Option<string>

    constructor ()
      ensures currentGameTitle.None?
    {
      currentGameTitle := None;
    }

    /** `onGameChange`: a repeat of the current title is ignored; otherwise
        the title becomes current and the change is reported with the old one. */
    method OnGameChange(newGameTitle: Option<string>) returns (sent: Option<GameChanged>)
      modifies this
      ensures newGameTitle == old(currentGameTitle) ==> sent.None? && currentGameTitle == old(currentGameTitle)
      ensures newGameTitle != old(currentGameTitle) ==>
        currentGameTitle == newGameTitle && sent == Some(GameChanged(newGameTitle, old(currentGameTitle)))
    {
      if newGameTitle == currentGameTitle {
        return None;
      }
      var previousGame := currentGameTitle;
      currentGameTitle := newGameTitle;
      sent := Some(GameChanged(newGameTitle, previousGame));
    }
  }

  // ---------------------------------------------------------------------
  // Forwarding to the page engine
  // ---------------------------------------------------------------------

  /** Messages from the worker or the popup. */
  datatype RuntimeRequest =
    | ConfigUpdate(config: Option<ConfigPatch>, keyBindings: Option<Bindings>)  // CONFIG_UPDATE
    | ToggleControls(enabled: Option<bool>)                                      // TOGGLE_CONTROLS
    | ProfileChanged(profile: Profile)                                           // PROFILE_CHANGED
    | OtherRequest(kind: string)

  /** The page message each request is forwarded as, if any. A profile change
      carries only the profile's sensitivity and inversion in its
      configuration, and its bindings in the separate field. */
  function Forward(request: RuntimeRequest): (m: Option<PageMessage>)
    ensures request.OtherRequest? <==> m.None?
    ensures request.ProfileChanged? ==>
      m == Some(UpdateConfigMessage(
        Some(ConfigPatch(None, Some(request.profile.mouseSensitivity), Some(request.profile.invertY), None)),
        request.profile.keyBindings))
    ensures request.ConfigUpdate? ==> m == Some(UpdateConfigMessage(request.config, request.keyBindings))
    ensures request.ToggleControls? ==> m == Some(ToggleMessage(request.enabled))
  {
    match request
    case ConfigUpdate(config, keyBindings) => Some(UpdateConfigMessage(config, keyBindings))
    case ToggleControls(enabled) => Some(ToggleMessage(enabled))
    case ProfileChanged(p) =>
      Some(UpdateConfigMessage(Some(ConfigPatch(None, Some(p.mouseSensitivity), Some(p.invertY), None)), p.keyBindings))
    case OtherRequest(_) => None
  }

  /** Once forwarded, a profile change leaves the engine enabled with the
      profile's sensitivity and inversion but the default bindings, whatever
      bindings the profile has and whatever the engine had before. */
  lemma ProfileChangeReachesEngine(cfg: Config, p: Profile)
    ensures AfterMessage(cfg, Forward(ProfileChanged(p)).value, true)
         == Config(true, p.mouseSensitivity, p.invertY, DefaultBindings)
  {
  }

  // ---------------------------------------------------------------------
  // Start-up configuration
  // ---------------------------------------------------------------------

  /** `result.profiles[result.activeProfileId]`, looked up only when both are
      present and the id is non-empty. */
  function ActiveProfile(profiles: Option<Dict<Profile>>, activeProfileId: Option<string>): Option<Profile> {
    if profiles.Some? && activeProfileId.Some? && activeProfileId.value != "" then
      Get(profiles.value, activeProfileId.value)
    else None
  }

  /** The start-up message: with an active profile, its bindings (or the
      stored ones when it has none) and a configuration (`{}` if none was
      stored) whose sensitivity and inversion come from the profile and whose
      other fields are kept; without one, the stored values unchanged. */
  method StartupConfig(storedConfig: Option<ConfigPatch>, storedBindings: Option<Bindings>,
                       profiles: Option<Dict<Profile>>, activeProfileId: Option<string>)
    returns (msg: PageMessage)
    ensures msg.ConfigMessage?
    ensures ActiveProfile(profiles, activeProfileId).None? ==>
      msg.config == storedConfig && msg.keyBindings == storedBindings
    ensures ActiveProfile(profiles, activeProfileId).Some? ==>
      var p := ActiveProfile(profiles, activeProfileId).value;
      && msg.config.Some?
      && msg.config.value.mouseSensitivity == Some(p.mouseSensitivity)
      && msg.config.value.invertY == Some(p.invertY)
      && msg.config.value.enabled == (if storedConfig.Some? then storedConfig.value.enabled else None)
      && msg.config.value.keyBindings == (if storedConfig.Some? then storedConfig.value.keyBindings else None)
      && msg.keyBindings == (if p.keyBindings.Some? then p.keyBindings else storedBindings)
  {
    var config := storedConfig;
    var keyBindings := storedBindings;

    if profiles.Some? && activeProfileId.Some? && activeProfileId.value != "" {
      var activeProfile := Get(profiles.value, activeProfileId.value);
      if activeProfile.Some? {
        var p := activeProfile.value;
        if p.keyBindings.Some? {
          keyBindings := p.keyBindings;
        }
        var c := if config.Some? then config.value else EmptyPatch;
        c := c.(mouseSensitivity := Some(p.mouseSensitivity));
        c := c.(invertY := Some(p.invertY));
        config := Some(c);
      }
    }
    msg := ConfigMessage(config, keyBindings);
  }

  /** The engine never takes its bindings from the separate field of the
      start-up message: with an active profile it ends up with the stored
      configuration's own bindings, or the defaults, and the profile's
      sensitivity and inversion. */
  lemma StartupIgnoresProfileBindings(cfg: Config, storedConfig: Option<ConfigPatch>, profile: Profile,
                                      bindings: Option<Bindings>)
    ensures var patch := storedConfig.GetOr(EmptyPatch).(mouseSensitivity := Some(profile.mouseSensitivity),
                                                          invertY := Some(profile.invertY));
      var after := AfterMessage(cfg, ConfigMessage(Some(patch), bindings), true);
      && after.mouseSensitivity == profile.mouseSensitivity
      && after.invertY == profile.invertY
      && after.keyBindings == patch.keyBindings.GetOr(DefaultBindings)
  {
  }
}
