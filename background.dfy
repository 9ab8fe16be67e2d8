/** The background worker (background.js): the profile store kept in
    synchronised extension storage and the rules its command and message
    handlers apply to it — install-time seeding, the on/off toggle, cycling
    to the next profile, saving, creating and deleting profiles, the
    game-title to profile assignments and the automatic switch on a game change. */
module Background {
  import opened Wrappers
  import opened Strings
  import opened Dict
  import opened Settings

  // ---------------------------------------------------------------------
  // Seed profiles
  // ---------------------------------------------------------------------

  /** `DEFAULT_PROFILE` with its id. */
  const DefaultProfile := Profile("default", "Default", Some(DefaultBindings), 5.0, false)

  const FpsProfile := Profile("fps", "FPS / Shooter", Some(DefaultBindings), 7.0, false)

  /** The racing layout: the default bindings overlaid with six entries, three
      of which repeat the default. */
  const RacingBindings: Bindings :=
    DefaultBindings["leftTrigger" := "KeyS"]["rightTrigger" := "KeyW"]["moveLeft" := "KeyA"]
                   ["moveRight" := "KeyD"]["actionA" := "Space"]["actionX" := "ShiftLeft"]

  const RacingProfile := Profile("racing", "Racing", Some(RacingBindings), 3.0, false)

  /** The profiles written on first install, in their enumeration order. */
  const SeedProfiles: Dict<Profile> := [("default", DefaultProfile), ("fps", FpsProfile), ("racing", RacingProfile)]

  /** The racing profile binds the same actions as the default one and
      keeps every binding except the two triggers and the X button. */
  lemma RacingKeepsOtherBindings()
    ensures RacingBindings.Keys == DefaultBindings.Keys
    ensures forall a :: a in DefaultBindings && a != "leftTrigger" && a != "rightTrigger" && a != "actionX"
                        ==> RacingBindings[a] == DefaultBindings[a]
  {
    forall a | a in DefaultBindings && a != "leftTrigger" && a != "rightTrigger" && a != "actionX"
      ensures RacingBindings[a] == DefaultBindings[a]
    {
      if a == "moveLeft" || a == "moveRight" || a == "actionA" {
        assert DefaultBindings[a] == RacingBindings[a];
      }
    }
  }

  /** The two triggers and the X button are bound differently. */
  lemma RacingRebindsTriggersAndX()
    ensures RacingBindings["leftTrigger"] != DefaultBindings["leftTrigger"]
    ensures RacingBindings["rightTrigger"] != DefaultBindings["rightTrigger"]
    ensures RacingBindings["actionX"] != DefaultBindings["actionX"]
  {
  }

  /** Every seed profile is stored under its own id, once. */
  lemma SeedProfilesWellFormed()
    ensures UniqueKeys(SeedProfiles)
    ensures forall i :: 0 <= i < |SeedProfiles| ==> SeedProfiles[i].1.id == SeedProfiles[i].0
    ensures Get(SeedProfiles, "default") == Some(DefaultProfile)
  {
  }

  // ---------------------------------------------------------------------
  // Badge and toggle
  // ---------------------------------------------------------------------

  /** `config?.enabled !== false`: only an explicit `false` counts as off. */
  function ShowsEnabled(config: Option<ConfigPatch>): (r: bool)
    ensures !r <==> config.Some? && config.value.enabled == Some(false)
  {
    !(config.Some? && config.value.enabled == Some(false))
  }

  /** `updateBadge`: no badge while enabled, `OFF` otherwise. */
  function BadgeText(enabled: bool): (t: string)
    ensures t == "" <==> enabled
    ensures !enabled ==> t == "OFF"
  {
    if enabled then "" else "OFF"
  }

  /** The configuration `toggleControls` stores: `enabled` becomes
      `!config.enabled`, so an absent flag counts as off and turns on; every
      other field is kept. */
  function Toggled(config: Option<ConfigPatch>): (r: ConfigPatch)
    ensures r.enabled.Some?
    ensures r.enabled.value <==> !(config.Some? && config.value.enabled == Some(true))
    ensures config.Some? ==> r == config.value.(enabled := r.enabled)
    ensures config.None? ==> r == EmptyPatch.(enabled := r.enabled)
  {
    var c := config.GetOr(EmptyPatch);
    c.(enabled := Some(!(c.enabled == Some(true))))
  }

  /** Two toggles restore an explicit flag; an absent flag ends up explicitly off. */
  lemma ToggleTwice(config: ConfigPatch)
    ensures config.enabled.Some? ==> Toggled(Some(Toggled(Some(config)))) == config
    ensures config.enabled.None? ==> Toggled(Some(Toggled(Some(config)))) == config.(enabled := Some(false))
  {
    var once := Toggled(Some(config));
    var twice := Toggled(Some(once));
    assert twice.mouseSensitivity == config.mouseSensitivity && twice.invertY == config.invertY;
    assert twice.keyBindings == config.keyBindings;
    if config.enabled.Some? {
      assert once.enabled == Some(!config.enabled.value);
      assert twice.enabled == config.enabled;
    }
  }

  /** `name.substring(0, 3).toUpperCase()`: the badge flashed on a profile switch. */
  function FlashText(name: string): (t: string)
    ensures |t| == if |name| < 3 then |name| else 3
    ensures forall i :: 0 <= i < |t| ==> t[i] == UpperChar(name[i])
  {
    ToUpper(if |name| < 3 then name else name[..3])
  }

  // ---------------------------------------------------------------------
  // Next profile
  // ---------------------------------------------------------------------

  predicate Distinct(ids: seq<string>) {
    forall i, j :: 0 <= i < j < |ids| ==> ids[i] != ids[j]
  }

  /** The id `switchToNextProfile` makes active:
      `ids[(ids.indexOf(active) + 1) % ids.length]`, none when there are no ids. */
  function NextProfileId(ids: seq<string>, active: Option<string>): (r: Option<string>)
    ensures r.None? <==> ids == []
    ensures r.Some? ==> r.value in ids
  {
    if ids == [] then None
    else
      var current := if active.Some? then IndexOf(ids, active.value) else -1;
      Some(ids[(current + 1) % |ids|])
  }

  /** An absent or unknown active id selects the first profile. */
  lemma NextOfUnknownIsFirst(ids: seq<string>, active: Option<string>)
    requires ids != [] && (active.None? || active.value !in ids)
    ensures NextProfileId(ids, active) == Some(ids[0])
  {
  }

  /** With distinct ids, the profile after the one at `i` is the one at
      `i + 1`, and the last wraps round to the first. */
  lemma NextIsSuccessor(ids: seq<string>, i: nat)
    requires Distinct(ids) && i < |ids|
    ensures NextProfileId(ids, Some(ids[i])) == Some(ids[(i + 1) % |ids|])
    ensures i + 1 < |ids| ==> NextProfileId(ids, Some(ids[i])) == Some(ids[i + 1])
    ensures i + 1 == |ids| ==> NextProfileId(ids, Some(ids[i])) == Some(ids[0])
  {
    var k := IndexOf(ids, ids[i]);
    assert k == i;
    WrapIndex(i + 1, |ids|);
  }

  /** `x % n` for `x` in [0, n]. */
  lemma WrapIndex(x: int, n: int)
    requires 0 < n && 0 <= x <= n
    ensures x % n == if x == n then 0 else x
  {
  }

  /** The active id after `k` presses of the next-profile command. */
  function Presses(ids: seq<string>, active: string, k: nat): string
    requires ids != []
    decreases k
  {
    if k == 0 then active
    else Presses(ids, NextProfileId(ids, Some(active)).value, k - 1)
  }

  /** With distinct ids, `k` presses from the profile at `i` move `k` places
      round the cycle. */
  lemma {:induction false} PressesMove(ids: seq<string>, i: nat, k: nat)
    requires Distinct(ids) && i < |ids| && k <= |ids|
    ensures Presses(ids, ids[i], k) == ids[if i + k < |ids| then i + k else i + k - |ids|]
    decreases k
  {
    if k > 0 {
      NextIsSuccessor(ids, i);
      var next := if i + 1 < |ids| then i + 1 else 0;
      assert Presses(ids, ids[i], k) == Presses(ids, ids[next], k - 1);
      PressesMove(ids, next, k - 1);
    }
  }

  /** As many presses as there are profiles come back to the starting one. */
  lemma PressesComeBack(ids: seq<string>, i: nat)
    requires Distinct(ids) && i < |ids|
    ensures Presses(ids, ids[i], |ids|) == ids[i]
  {
    PressesMove(ids, i, |ids|);
  }

  // ---------------------------------------------------------------------
  // Deleting a profile
  // ---------------------------------------------------------------------

  datatype DeleteOutcome =
    | Refused
    | Deleted(profiles: Dict<Profile>, activeProfileId: Option<string>)

  /** `DELETE_PROFILE`: refused for the last profile or for `default`;
      otherwise the entry goes, and an active id naming it falls back to `default`. */
  function DeleteOutcomeOf(profiles: Dict<Profile>, active: Option<string>, id: string): (r: DeleteOutcome)
    requires UniqueKeys(profiles)
    ensures r.Refused? <==> |profiles| <= 1 || id == "default"
    ensures r.Deleted? ==> UniqueKeys(r.profiles)
    ensures r.Deleted? ==> Get(r.profiles, id).None?
    ensures r.Deleted? ==> forall k :: k != id ==> Get(r.profiles, k) == Get(profiles, k)
    ensures r.Deleted? ==> (r.activeProfileId == active || r.activeProfileId == Some("default"))
    ensures r.Deleted? ==> (r.activeProfileId != active <==> active == Some(id))
  {
    if |profiles| <= 1 || id == "default" then Refused
    else
      var rest := Remove(profiles, id);
      Deleted(rest, if active == Some(id) then Some("default") else active)
  }

  /** A permitted delete never removes `default`, so an active id that named
      an existing profile still names one afterwards whenever `default` exists. */
  lemma DeleteKeepsActiveResolvable(profiles: Dict<Profile>, active: string, id: string)
    requires UniqueKeys(profiles)
    requires Get(profiles, "default").Some? && Get(profiles, active).Some?
    requires DeleteOutcomeOf(profiles, Some(active), id).Deleted?
    ensures var r := DeleteOutcomeOf(profiles, Some(active), id);
      r.activeProfileId.Some? && Get(r.profiles, r.activeProfileId.value).Some?
  {
  }

  // ---------------------------------------------------------------------
  // Game-title lookup
  // ---------------------------------------------------------------------

  /** `gameTitle.toLowerCase().trim()` */
  function NormalizeTitle(title: string): string {
    Trim(ToLower(title))
  }

  /** The lookup does not depend on the letter case of the incoming title. */
  lemma NormalizeIgnoresCase(title: string)
    ensures NormalizeTitle(ToUpper(title)) == NormalizeTitle(title)
  {
    LowerOfUpper(title);
  }

  /** Position of the first assignment whose lower-cased title equals
      `normalized`, or -1. Saved titles are lower-cased but not trimmed. */
  function FirstMatchIndex(gameProfiles: Dict<string>, normalized: string): (i: int)
    ensures -1 <= i < |gameProfiles|
    ensures i >= 0 ==> ToLower(gameProfiles[i].0) == normalized
    ensures i >= 0 ==> forall j :: 0 <= j < i ==> ToLower(gameProfiles[j].0) != normalized
    ensures i == -1 ==> forall j :: 0 <= j < |gameProfiles| ==> ToLower(gameProfiles[j].0) != normalized
  {
    if gameProfiles == [] then -1
    else if ToLower(gameProfiles[0].0) == normalized then 0
    else
      var i := FirstMatchIndex(gameProfiles[1..], normalized);
      if i == -1 then -1 else i + 1
  }

  /** The profile id assigned to the first matching title, if any. */
  function AssignedProfile(gameProfiles: Dict<string>, title: string): Option<string> {
    var i := FirstMatchIndex(gameProfiles, NormalizeTitle(title));
    if i == -1 then None else Some(gameProfiles[i].1)
  }

  /** A saved title that starts with white space can never match, because the
      incoming title is trimmed and the saved one is not. */
  lemma PaddedTitleNeverMatches(saved: string, title: string)
    requires saved != [] && IsJsSpace(saved[0])
    ensures ToLower(saved) != NormalizeTitle(title)
  {
    assert ToLower(saved)[0] == saved[0];
  }

  /** Whether a game change switches profiles: only for a non-empty title,
      a non-empty matched id different from the active one, naming an existing profile. */
  predicate SwitchesTo(profiles: Dict<Profile>, active: Option<string>, matched: Option<string>) {
    matched.Some? && matched.value != "" && Some(matched.value) != active
    && Get(profiles, matched.value).Some?
  }

  // ---------------------------------------------------------------------
  // The stored state and the handlers
  // ---------------------------------------------------------------------

  /** Profiles created at different times get different ids, so a new
      profile never overwrites an earlier one created by the same button. */
  lemma CreatedIdsDiffer(t1: nat, t2: nat)
    requires t1 != t2
    ensures "profile_" + NatToString(t1) != "profile_" + NatToString(t2)
  {
    var p := "profile_";
    assert (p + NatToString(t1))[|p|..] == NatToString(t1);
    assert (p + NatToString(t2))[|p|..] == NatToString(t2);
    NatToStringInjective(t1, t2);
  }

  /** The synchronised storage the worker reads and writes; each key may be absent. */
  class SyncStorage {
    var profiles: Option<Dict<Profile>>
    var activeProfileId: Option<string>
    var gameProfiles: Option<Dict<string>>
    var config: Option<ConfigPatch>

    ghost predicate Valid()
      reads this
    {
      && (profiles.Some? ==> UniqueKeys(profiles.value))
      && (gameProfiles.Some? ==> UniqueKeys(gameProfiles.value))
    }

    /** `data.profiles || {}` */
    function Profiles(): (ps: Dict<Profile>)
      reads this
      ensures profiles.None? ==> ps == []
      ensures profiles.Some? ==> ps == profiles.value
    {
      profiles.GetOr([])
    }

    /** `data.gameProfiles || {}` */
    function GameProfiles(): (gs: Dict<string>)
      reads this
      ensures gameProfiles.None? ==> gs == []
      ensures gameProfiles.Some? ==> gs == gameProfiles.value
    {
      gameProfiles.GetOr([])
    }

    constructor (profiles: Option<Dict<Profile>>, activeProfileId: Option<string>,
                 gameProfiles: Option<Dict<string>>, config: Option<ConfigPatch>)
      requires profiles.Some? ==> UniqueKeys(profiles.value)
      requires gameProfiles.Some? ==> UniqueKeys(gameProfiles.value)
      ensures Valid()
      ensures this.profiles == profiles && this.activeProfileId == activeProfileId
      ensures this.gameProfiles == gameProfiles && this.config == config
    {
      this.profiles := profiles;
      this.activeProfileId := activeProfileId;
      this.gameProfiles := gameProfiles;
      this.config := config;
    }

    /** `onInstalled`: seeds the three profiles, `default` as active and an
        enabled configuration only when no profiles are stored; returns the
        badge text, chosen from the configuration read before seeding. */
    method OnInstalled() returns (badge: string)
      requires Valid()
      modifies this
      ensures Valid()
      ensures badge == BadgeText(ShowsEnabled(old(config)))
      ensures old(profiles).Some? ==>
        profiles == old(profiles) && activeProfileId == old(activeProfileId) && config == old(config)
      ensures old(profiles).None? ==>
        profiles == Some(SeedProfiles) && activeProfileId == Some("default")
        && config == Some(EmptyPatch.(enabled := Some(true)))
      ensures gameProfiles == old(gameProfiles)
    {
      var previous := config;
      if profiles.None? {
        SeedProfilesWellFormed();
        profiles := Some(SeedProfiles);
        activeProfileId := Some("default");
        config := Some(EmptyPatch.(enabled := Some(true)));
      }
      badge := BadgeText(ShowsEnabled(previous));
    }

    /** `toggleControls`: returns the new flag (also sent to every tab) and
        the text flashed on the badge. */
    method ToggleControls() returns (enabled: bool, flash: string)
      modifies this`config
      ensures config == Some(Toggled(old(config)))
      ensures enabled == config.value.enabled.value
      ensures flash == if enabled then "ON" else "OFF"
    {
      var c := if config.Some? then config.value else EmptyPatch;
      enabled := !(c.enabled == Some(true));
      c := c.(enabled := Some(enabled));
      config := Some(c);
      flash := if enabled then "ON" else "OFF";
    }

    /** `switchToNextProfile`: returns the profile sent to the tabs, none when
        there are no profiles. */
    method SwitchToNextProfile() returns (notified: Option<Profile>, flash: Option<string>)
      requires Valid()
      modifies this`activeProfileId
      ensures Valid()
      ensures flash == if notified.Some? then Some(FlashText(notified.value.name)) else None
      ensures Profiles() == [] ==> notified.None? && activeProfileId == old(activeProfileId)
      ensures Profiles() != [] ==>
        activeProfileId == NextProfileId(Keys(Profiles()), old(activeProfileId))
        && notified == Get(Profiles(), activeProfileId.value)
        && notified.Some?
    {
      var ps := Profiles();
      var ids := Keys(ps);
      if |ids| == 0 {
        return None, None;
      }
      var currentIndex := if activeProfileId.Some? then IndexOf(ids, activeProfileId.value) else -1;
      var nextIndex := (currentIndex + 1) % |ids|;
      var nextProfileId := ids[nextIndex];
      GetAt(ps, nextIndex);
      notified := Get(ps, nextProfileId);
      activeProfileId := Some(nextProfileId);
      flash := Some(FlashText(notified.value.name));
    }

    /** `SAVE_PROFILE`: stores the profile under its own id. */
    method SaveProfile(p: Profile)
      requires Valid()
      modifies this`profiles
      ensures Valid()
      ensures profiles == Some(Put(old(Profiles()), p.id, p))
    {
      var ps := Profiles();
      profiles := Some(Put(ps, p.id, p));
    }

    /** `DELETE_PROFILE`: returns whether the delete was permitted. */
    method DeleteProfile(id: string) returns (success: bool)
      requires Valid()
      modifies this`profiles, this`activeProfileId
      ensures Valid()
      ensures success <==> DeleteOutcomeOf(old(Profiles()), old(activeProfileId), id).Deleted?
      ensures !success ==> profiles == old(profiles) && activeProfileId == old(activeProfileId)
      ensures success ==>
        var r := DeleteOutcomeOf(old(Profiles()), old(activeProfileId), id);
        profiles == Some(r.profiles) && activeProfileId == r.activeProfileId
    {
      var ps := Profiles();
      if |Keys(ps)| <= 1 || id == "default" {
        return false;
      }
      ps := Remove(ps, id);
      var active := activeProfileId;
      if active == Some(id) {
        active := Some("default");
      }
      profiles, activeProfileId := Some(ps), active;
      success := true;
    }

    /** `CREATE_PROFILE` at time `now` (milliseconds): a profile with the
        default bindings, sensitivity 5 and no inversion, stored under
        `profile_<now>`; returns that id. */
    method CreateProfile(name: string, now: nat) returns (id: string)
      requires Valid()
      modifies this`profiles
      ensures Valid()
      ensures id == "profile_" + NatToString(now)
      ensures profiles == Some(Put(old(Profiles()), id, Profile(id, name, Some(DefaultBindings), 5.0, false)))
    {
      var ps := Profiles();
      id := "profile_" + NatToString(now);
      profiles := Some(Put(ps, id, Profile(id, name, Some(DefaultBindings), 5.0, false)));
    }

    /** `ASSIGN_GAME_PROFILE` */
    method AssignGameProfile(gameTitle: string, profileId: string)
      requires Valid()
      modifies this`gameProfiles
      ensures Valid()
      ensures gameProfiles == Some(Put(old(GameProfiles()), gameTitle, profileId))
    {
      var gs := GameProfiles();
      gameProfiles := Some(Put(gs, gameTitle, profileId));
    }

    /** `REMOVE_GAME_PROFILE` */
    method RemoveGameProfile(gameTitle: string)
      requires Valid()
      modifies this`gameProfiles
      ensures Valid()
      ensures gameProfiles == Some(Remove(old(GameProfiles()), gameTitle))
    {
      var gs := GameProfiles();
      gameProfiles := Some(Remove(gs, gameTitle));
    }

    /** The scan in `handleGameChange`: the profile id of the first saved
        title whose lower-cased form equals the normalised incoming title. */
    method FindGameProfile(title: string) returns (matched: Option<string>)
      ensures matched == AssignedProfile(GameProfiles(), title)
    {
      var entries := GameProfiles();
      var normalized := NormalizeTitle(title);
      matched := None;
      var i := 0;
      while i < |entries|
        invariant 0 <= i <= |entries|
        invariant matched.None?
        invariant forall j :: 0 <= j < i ==> ToLower(entries[j].0) != normalized
      {
        if ToLower(entries[i].0) == normalized {
          matched := Some(entries[i].1);
          break;
        }
        i := i + 1;
      }
    }

    /** `handleGameChange`: switches the active profile to the one assigned
        to the game, when there is one, it exists and is not already active;
        returns the profile sent to the tab. Nothing happens for an empty title. */
    method HandleGameChange(gameTitle: Option<string>) returns (switched: Option<Profile>, flash: Option<string>)
      requires Valid()
      modifies this`activeProfileId
      ensures Valid()
      ensures flash == if switched.Some? then Some(FlashText(switched.value.name)) else None
      ensures gameTitle.None? || gameTitle.value == "" ==>
        switched.None? && activeProfileId == old(activeProfileId)
      ensures gameTitle.Some? && gameTitle.value != "" ==>
        var matched := AssignedProfile(GameProfiles(), gameTitle.value);
        if SwitchesTo(Profiles(), old(activeProfileId), matched) then
          activeProfileId == matched && switched == Get(Profiles(), matched.value) && switched.Some?
        else
          switched.None? && activeProfileId == old(activeProfileId)
    {
      if gameTitle.None? || gameTitle.value == "" {
        return None, None;
      }
      var matched := FindGameProfile(gameTitle.value);
      var ps := Profiles();
      if matched.Some? && matched.value != "" && Some(matched.value) != activeProfileId
         && Get(ps, matched.value).Some? {
        activeProfileId := matched;
        switched := Get(ps, matched.value);
        flash := Some(FlashText(switched.value.name));
      } else {
        switched, flash := None, None;
      }
    }
  }
}
