# Keyboard & Mouse for Xbox Cloud Gaming: a Dafny model

The browser extension lets keyboard and mouse input drive a virtual Xbox
gamepad in a cloud-gaming page. This project models its core and proves
properties of that model:

- **The page engine** (`injected.js`), module `Gamepad`. It covers the
  17-button, 4-axis virtual gamepad, the key, mouse and pointer-lock
  handlers, one frame of `updateGamepad`, the `getGamepads` override with its
  snapshot, and the configuration message handler. The gamepad is the class
  `Gamepad.Engine`, whose `buttons` and `axes` are arrays updated in place.
- **The background worker** (`background.js`), module `Background`. It covers
  seeding the storage on install, the badge, toggling the controls, cycling
  to the next profile, the profile and game-assignment handlers, and
  switching profile when the detected game changes. The synchronised storage
  is the class `Background.SyncStorage`.
- **The content script** (`content.js`), module `Content`. It covers
  game-title detection (selector text, page title, `/play/games/<slug>` URL),
  the de-duplicated game-change notice, the forwarding of runtime requests to
  the page, and the start-up merge of the active profile into the config.
- **The preset library page** (`docs/js/presets.js`), module `Presets`. It
  covers the category and text filter, the detail view's values, and the
  install guards.
- **The website's language support** (`docs/js/i18n.js`), module `I18n`. It
  covers choosing the start language, switching language, the strings
  written into the document, text direction, and language search.

Shared modules:

- `Wrappers`: `Option`.
- `Strings`:
  - ASCII case mapping;
  - JavaScript `trim`, `includes`, `indexOf`, `split(c)[0]`, one-character
    `replace` and `join`.
- `Dict`: a JavaScript object as its list of entries in enumeration order.
- `Settings`: the bindings table, the stored configuration object and
  profiles.

Numbers are Dafny `real`s, not IEEE doubles. `Math.sqrt(2)` appears as the
double nearest to it (`Gamepad.Sqrt2`).

## Model

| member | source | states |
|---|---|---|
| Dict.Keys | background.js:115 | `Object.keys` lists every property name, in entry order |
| Dict.Get | background.js:122 | a lookup misses exactly when no entry has the key |
| Dict.GetAt | background.js:121-122 | in an object with unique keys, looking up any entry's key yields that entry's value |
| Dict.IndexOf | background.js:119 | `indexOf` returns the first position of the key, or -1 when it is absent |
| Dict.Cons | background.js:115-122 | the keys, lookups and key uniqueness of an object with one more entry in front |
| Dict.Uncons | background.js:115-122 | the tail of an object with unique keys does not hold its first key |
| Dict.Put | background.js:248 | assigning a key: keys stay unique, that key now maps to the value, every other key is unchanged |
| Dict.PutAppends | background.js:284-291 | assigning a key the object does not yet hold appends it as the last entry |
| Dict.PutKeepsKeys | background.js:248 | assigning a key the object already holds keeps its key order |
| Dict.Remove | background.js:266 | deleting a key: it is gone, every other key is unchanged, and the object shrinks by one exactly when the key was present |
| Dict.RemoveKeepsOrder | background.js:266 | deleting a key cuts exactly its entry out; the entries before and after it keep their order |
| Strings.ToLower | injected.js:165 | lower-casing keeps the length and maps each character through ASCII lower-casing |
| Strings.ToUpper | content.js:54 | upper-casing keeps the length and maps each character through ASCII upper-casing |
| Strings.LowerOfUpper | background.js:175 | lower-casing forgets any earlier upper-casing |
| Strings.TrimStart | content.js:35-36 | the result is a suffix of the input, starts with a non-space, and only white space was dropped |
| Strings.TrimEnd | content.js:35-36 | the result is a prefix of the input, ends with a non-space, and only white space was dropped |
| Strings.Trim | content.js:35-36 | the trimmed string is no longer than the input and has no white space at either end |
| Strings.TrimIsSlice | content.js:44-45 | the trimmed string is a contiguous slice of the input, preceded only by white space |
| Strings.TrimKeepsCharacters | content.js:44-45 | trimming introduces no character |
| Strings.EmptyIsContained | docs/js/i18n.js:248 | helper fact for `EmptyQueryShowsAll`: the empty string occurs in every string |
| Strings.Contains | docs/js/presets.js:146 | (definition) `includes`: the needle starts at some position of the string |
| Strings.Join | docs/js/presets.js:139-144 | (definition) `join(sep)`: the parts with the separator between consecutive ones |
| Strings.IndexOfChar | content.js:43 | the first position of a character, or -1 exactly when it is absent |
| Strings.BeforeFirst | content.js:43-45 | `split(c)[0]` is a prefix without `c`; it is the whole string when `c` is absent, and is followed by `c` otherwise |
| Strings.ReplaceFirst | docs/js/i18n.js:72 | a one-character `replace` changes only the first occurrence; a string without the character is unchanged |
| Strings.NatToString | background.js:284 | `String(n)`: non-empty decimal digits without a leading zero whose value is `n` |
| Strings.DigitsValue | background.js:284 | (definition) the number a digit string denotes, read most significant digit first |
| Strings.NatToStringInjective | background.js:284 | different numbers give different decimal strings |
| Gamepad.Overlay | injected.js:329-346 | `{...DEFAULT_CONFIG, ...patch}` takes each field from the patch when present and from the defaults otherwise |
| Gamepad.AfterMessage | injected.js:329-346 | only the page's own window is heeded; a configuration message with a configuration, and any update message, replace the configuration by its overlay on the defaults; a configuration message without one changes nothing; a toggle flips only `enabled`; other messages change nothing |
| Gamepad.UpdateForgetsPreviousConfig | injected.js:337-340 | an update message rebuilds the config from the defaults, whatever came before and whatever bindings were sent |
| Gamepad.ConfigForgetsPreviousConfig | injected.js:332-335 | a configuration message with a configuration ignores the previous configuration and its own `keyBindings` field: the result is the overlay on the defaults |
| Gamepad.ToggleTwiceRestores | injected.js:342-345 | two toggle messages restore the config |
| Gamepad.IsActive | injected.js:248-276 | (definition) `keyState[bindings[action]]`: the key bound to the action is held; an unbound action is not |
| Gamepad.IsTypingTarget | injected.js:164-167 | (definition) an `input` or `textarea` in any letter case, or an editable element |
| Gamepad.TypingTargetIgnoresCase | injected.js:164-167 | the typing-target test does not depend on the tag name's letter case |
| Gamepad.KeySuppressed | injected.js:132-147 | a key's default action is suppressed iff the engine is enabled, some action is bound to that code, and focus is not in a text field |
| Gamepad.AfterKey | injected.js:132-162 | an enabled engine records the key as down or up and no other key changes; a disabled one records nothing |
| Gamepad.KeyDownIdempotent | injected.js:132-147 | key repeat (a second keydown) changes nothing further |
| Gamepad.Clamp | injected.js:180-181 | the result is in [-1, 1], and equals the input when the input already is |
| Gamepad.AfterMouseMove | injected.js:172-182 | only an enabled engine with a locked pointer moves the accumulator, by the movement times 0.002 times the sensitivity, negated on Y when inverted, clamped to [-1, 1] |
| Gamepad.AfterPointerLockChange | injected.js:220-227 | losing the lock recentres the accumulator; gaining it keeps its value |
| Gamepad.DecayFactor | injected.js:292-300 | (definition) 0.95 while the pointer is locked, 0.8 otherwise |
| Gamepad.Decayed | injected.js:292-300 | decay keeps the sign, never grows the magnitude, strictly shrinks it unless it is zero, and stays in [-1, 1] |
| Gamepad.IsStreamSurface | injected.js:190-193 | (definition) a VIDEO or CANVAS element, or an element inside a known stream container |
| Gamepad.ButtonActionsDistinct | injected.js:245-269 | sixteen different non-movement actions drive the sixteen written slots |
| Gamepad.FrameButtons | injected.js:245-269 | after a frame each slot 0 to 15 shows whether its action's key is held, and slot 16 is untouched |
| Gamepad.Sqrt | injected.js:279 | the square root for the magnitudes a stick can have (0, 1, 2); greater than 1 exactly when its argument is |
| Gamepad.RawAxis | injected.js:272-276 | an axis reads -1, 0 or 1; it reads 0 exactly when both or neither direction is held |
| Gamepad.LeftStick | injected.js:271-286 | the left stick lies in the unit disc; its signs follow the held directions; a single direction gives full deflection; a diagonal gives equal components of length about 1 |
| Gamepad.SquaredLength | injected.js:279 | the squared length of a raw stick vector is the number of its non-zero components |
| Gamepad.DiagonalPair | injected.js:279-283 | on a diagonal both normalised components keep their signs, have equal size, and together are just under one unit long |
| Gamepad.DiagonalScale | injected.js:279-283 | dividing a unit axis by the computed root of 2 leaves it with the same sign, within [-1, 1], and with a square within 5e-16 of 1/2 |
| Gamepad.Engine.Snapshot | injected.js:88-103 | the snapshot copies identity, timestamp, axes and buttons |
| Gamepad.Engine.constructor | injected.js:45-63 | 17 released buttons, 4 zeroed axes, the standard mapping, the default config, no keys held and a centred, unlocked mouse |
| Gamepad.Engine.SetButton | injected.js:306-310 | slot `i` gets `pressed == touched == p` and `value == (p ? 1 : 0)`; no other slot changes |
| Gamepad.Engine.HandleKeyDown | injected.js:132-147 | records the key as held (when enabled) and reports suppression as `KeySuppressed` states |
| Gamepad.Engine.HandleKeyUp | injected.js:149-162 | records the key as released (when enabled) and reports suppression as `KeySuppressed` states |
| Gamepad.Engine.HandleMouseMove | injected.js:172-182 | the accumulator moves as `AfterMouseMove` states and stays in [-1, 1] |
| Gamepad.Engine.HandleMouseDown | injected.js:184-209 | a left click on the stream asks for pointer lock when unlocked; a right or middle click marks `MouseRight` or `MouseMiddle` as held and is suppressed; a disabled engine does neither |
| Gamepad.Engine.HandleMouseUp | injected.js:211-218 | releasing the right or middle button marks it as released; other buttons change nothing |
| Gamepad.Engine.HandlePointerLockChange | injected.js:220-227 | the lock state follows the document, and losing the lock recentres the mouse |
| Gamepad.Engine.HandleContextMenu | injected.js:230-234 | the context menu is suppressed iff the engine is enabled and the right trigger is bound to the right mouse button |
| Gamepad.Engine.UpdateGamepad | injected.js:239-304 | a disabled frame changes nothing; an enabled one sets the buttons as `FrameButtons`, the left stick as `LeftStick`, the right stick to the mouse accumulator before decay, decays the accumulator and stamps the time |
| Gamepad.Engine.UpdateButtons | injected.js:245-269 | slots 0 to 15 follow their bound keys and slot 16 is untouched |
| Gamepad.Engine.UpdateFaceButtons | injected.js:247-251 | A, B, X and Y follow their keys and no other slot changes |
| Gamepad.Engine.UpdateBumpersAndTriggers | injected.js:253-257 | the bumpers and triggers follow their keys and no other slot changes |
| Gamepad.Engine.UpdateSpecialButtons | injected.js:259-263 | view, menu and the stick clicks follow their keys and no other slot changes |
| Gamepad.Engine.UpdateDpad | injected.js:265-269 | the four d-pad slots follow their keys and no other slot changes |
| Gamepad.Engine.UpdateLeftStick | injected.js:271-286 | axes 0 and 1 become `LeftStick` of the held movement keys; axes 2 and 3 are untouched |
| Gamepad.Engine.UpdateRightStick | injected.js:288-300 | axes 2 and 3 take the accumulator, which then decays by 0.95 when locked and 0.8 otherwise |
| Gamepad.Engine.GetGamepads | injected.js:68-86 | when enabled the page sees a fresh snapshot in slot 0 and nothing in slots 1 to 3; when disabled it sees the browser's own list |
| Gamepad.Engine.HandleMessage | injected.js:329-346 | the engine's config becomes `AfterMessage` of the message |
| Background.RacingKeepsOtherBindings | background.js:50-58 | the racing preset binds the same actions as the defaults and keeps every default binding except the triggers and X |
| Background.RacingRebindsTriggersAndX | background.js:52-57 | the racing preset binds both triggers and X to keys other than their defaults |
| Background.SeedProfilesWellFormed | background.js:36-68 | the seeded profiles have unique ids, each stored under its own id, with `default` among them |
| Background.ShowsEnabled | background.js:71 | the badge shows the controls as off only when the stored config says `enabled: false` |
| Background.BadgeText | background.js:144-152 | the badge is blank when enabled and reads `OFF` otherwise |
| Background.Toggled | background.js:84-90 | toggling sets `enabled` to the opposite of "stored as true" and keeps every other field |
| Background.ToggleTwice | background.js:84-90 | toggling twice restores a config that stored `enabled`; one that lacked it ends up `false` |
| Background.FlashText | background.js:140 | the flashed profile label is the first three characters of its name, upper-cased |
| Background.NextProfileId | background.js:113-124 | the next profile is one of the stored ids; there is none exactly when no profile is stored |
| Background.NextOfUnknownIsFirst | background.js:119-121 | with no active profile, or an unknown one, the first profile is chosen |
| Background.NextIsSuccessor | background.js:119-121 | the profile after position `i` is at `i + 1`, wrapping from the last to the first |
| Background.WrapIndex | background.js:120 | helper fact for `NextIsSuccessor`: `(i + 1) % n` is `i + 1` below `n` and 0 at `n` |
| Background.PressesMove | background.js:112-124 | `k` presses move `k` places along the profile order, cyclically |
| Background.PressesComeBack | background.js:112-124 | as many presses as there are profiles return to the starting profile |
| Background.DeleteOutcomeOf | background.js:256-279 | deleting is refused iff at most one profile is stored (even when the id is absent) or the id is `default`; otherwise only that id disappears, and the active id falls back to `default` exactly when it was the deleted one |
| Background.DeleteKeepsActiveResolvable | background.js:266-272 | after a deletion the active id still names a stored profile, provided `default` and the old active profile were stored |
| Background.NormalizeIgnoresCase | background.js:175 | the game lookup does not depend on the incoming title's letter case |
| Background.NormalizeTitle | background.js:175 | (definition) `toLowerCase().trim()` of the incoming title |
| Background.FirstMatchIndex | background.js:178-184 | the first assignment whose lower-cased title equals the normalised title, or -1 when none does |
| Background.PaddedTitleNeverMatches | background.js:175-180 | a saved title starting with white space never matches, because only the incoming title is trimmed |
| Background.AssignedProfile | background.js:178-184 | (definition) the profile id of the first saved title that matches, if any |
| Background.SwitchesTo | background.js:186 | (definition) a non-empty matched id, different from the active one, naming a stored profile |
| Background.CreatedIdsDiffer | background.js:284 | profiles created at different times get different ids |
| Background.SyncStorage.Profiles | background.js:114 | missing profiles read as an empty object |
| Background.SyncStorage.GameProfiles | background.js:171 | missing game assignments read as an empty object |
| Background.SyncStorage.constructor | background.js:34 | the storage holds the given keys |
| Background.SyncStorage.OnInstalled | background.js:33-72 | a first install seeds the three profiles, selects `default` and enables the controls; a reinstall keeps what is stored; the badge follows the stored config |
| Background.SyncStorage.ToggleControls | background.js:84-109 | the stored config is toggled, the new state is returned, and the badge flashes `ON` or `OFF` |
| Background.SyncStorage.SwitchToNextProfile | background.js:112-141 | with profiles stored, the next id in order becomes active, that profile is announced and its `FlashText` label is flashed; with none, nothing changes |
| Background.SyncStorage.SaveProfile | background.js:245-254 | the profile is stored under its own id and nothing else changes |
| Background.SyncStorage.DeleteProfile | background.js:256-279 | succeeds exactly when `DeleteOutcomeOf` allows it and then stores its result; a refusal changes nothing |
| Background.SyncStorage.CreateProfile | background.js:281-297 | a new profile with the default bindings, sensitivity 5 and no inversion is stored under `profile_<time>` |
| Background.SyncStorage.AssignGameProfile | background.js:311-320 | the title now maps to the profile and every other assignment is kept |
| Background.SyncStorage.RemoveGameProfile | background.js:322-331 | the title's assignment is removed and every other assignment is kept |
| Background.SyncStorage.FindGameProfile | background.js:175-184 | the loop with early exit returns the profile assigned to the first matching title |
| Background.SyncStorage.HandleGameChange | background.js:167-209 | a detected game switches to its assigned profile only when that profile exists and is not already active, flashing its `FlashText` label; no title means no change |
| Content.FirstFilled | content.js:33-38 | the first selector whose text is non-blank after trimming, or -1 when there is none |
| Content.Filled | content.js:35 | (definition) an element was found and its trimmed text is non-empty |
| Content.TitleFromPageTitle | content.js:41-47 | the page title yields a title iff it has a `|` and its trimmed first part is not the store's name; the result has no `|` and no surrounding white space |
| Content.FirstMatchFrom | content.js:51 | the leftmost position where `/play/games/` (any case) is followed by a slug character |
| Content.SlugRun | content.js:51 | the longest prefix without `/` or `?` |
| Content.UrlSlug | content.js:51-52 | a URL yields a non-empty slug without `/` or `?` iff the pattern occurs in it |
| Content.DashesToSpaces | content.js:54 | every `-` becomes a space and nothing else changes |
| Content.CapitalizeWords | content.js:54 | exactly the first character of each word is upper-cased |
| Content.SlugToTitle | content.js:54 | (definition) the slug with dashes as spaces, then word starts upper-cased |
| Content.UpperCharKeepsWordness | content.js:54 | upper-casing keeps a character a word character and is undone by lower-casing |
| Content.SlugTitleShape | content.js:54 | the title from a slug has the same length, no `-`, differs from the dash-less slug only in letter case, and has no word starting in lower case |
| Content.SlugTitleIdempotent | content.js:54 | rewriting an already rewritten title changes nothing |
| Content.TitleFromUrl | content.js:50-55 | a URL yields a non-empty title without `-` iff it has a slug |
| Content.DetectCurrentGame | content.js:21-58 | the selectors are tried in order, then the page title, then the URL; a non-blank selector text always gives a non-empty title |
| Content.DetectedTitle | content.js:21-58 | (definition) the first filled selector, else the page-title rule, else the URL rule |
| Content.FromTitleOrUrl | content.js:40-57 | the fallback after the selectors: the trimmed page-title text before the first `|` when that is not the service's own name, otherwise the title rewritten from the URL slug |
| Content.GameWatcher.constructor | content.js:18 | no game is known at first |
| Content.GameWatcher.OnGameChange | content.js:60-74 | a repeated title sends nothing; a new one is recorded and sent with the previous title |
| Content.Forward | content.js:141-169 | every known request reaches the page as a message: a config update as an update with the same config and bindings, a toggle as a toggle with the same flag, and a profile change as an update with only the profile's sensitivity and inversion, plus its bindings |
| Content.ProfileChangeReachesEngine | content.js:158-169 | a forwarded profile change leaves the engine enabled with the profile's sensitivity and inversion and the default bindings |
| Content.StartupConfig | content.js:173-193 | at start-up an active profile supplies the sensitivity, inversion and (when it has them) the bindings, and the other stored fields are kept; without one, the stored values are sent unchanged |
| Content.StartupIgnoresProfileBindings | content.js:174-186 | the engine's bindings after the start-up message come from the stored config, not from the bindings sent alongside it |
| Content.ActiveProfile | content.js:176-178 | (definition) the stored profile under the active id, when both are stored |
| Presets.Filter | docs/js/presets.js:131-150 | the result is an order-preserving subsequence of the presets and holds exactly those that match |
| Presets.FilterKeepsCounts | docs/js/presets.js:131-150 | every matching preset appears in the result as often as in the input, and no other preset appears at all |
| Presets.NormalizeTerm | docs/js/presets.js:129 | (definition) the lower-cased, trimmed search term |
| Presets.SearchText | docs/js/presets.js:139-144 | (definition) name, description, author and tags joined with spaces, lower-cased |
| Presets.Matches | docs/js/presets.js:133-149 | (definition) the category is `all` or the preset's, and the term is empty or occurs in the search text |
| Presets.FilterAllBlank | docs/js/presets.js:128-150 | category `all` with a blank term keeps every preset in order |
| Presets.OtherCategoryExcluded | docs/js/presets.js:133-135 | a preset of another category is excluded whatever the term |
| Presets.MatchSpansFields | docs/js/presets.js:138-147 | the term is searched in the joined fields, so a match can span two fields |
| Presets.FormatCurve | docs/js/presets.js:276-283 | `exponential` shows as `Exponential`, `sCurve` as `S-Curve`, anything else as `Linear` |
| Presets.CurveLabel | docs/js/presets.js:215 | a missing or empty curve shows as `Linear` |
| Presets.SettingOrDefault | docs/js/presets.js:214-216 | a missing or zero setting shows as 5, any other value as itself |
| Presets.Lookup | docs/js/presets.js:221-224 | a name in the table replaces the code; an unknown code is shown as it is |
| Presets.AsList | docs/js/presets.js:220 | a single code is treated as a one-element list |
| Presets.SingleShowsAsList | docs/js/presets.js:219-221 | a single-code binding shows exactly as the one-element list does, as that code's display name |
| Presets.DisplayKeys | docs/js/presets.js:220-221 | (definition) each key code through the display table, joined with `, ` |
| Presets.Rows | docs/js/presets.js:219-228 | one row per binding, in order, with the action's display name and the joined key names |
| Presets.Find | docs/js/presets.js:202 | the first preset with the id, or none when no preset has it |
| Presets.PresetLibrary.constructor | docs/js/presets.js:10-13 | after loading, every preset is shown and none is selected |
| Presets.PresetLibrary.FilterPresets | docs/js/presets.js:128-153 | the shown presets become the filter of the lower-cased, trimmed term |
| Presets.PresetLibrary.OpenPresetModal | docs/js/presets.js:201-233 | selects the preset with the id; an unknown id shows nothing; otherwise the view carries its name, author, category, description, settings with defaults, binding rows and whether install is possible |
| Presets.PresetLibrary.CloseModal | docs/js/presets.js:236-239 | closing clears the selection |
| Presets.PresetLibrary.InstallPreset | docs/js/presets.js:242-273 | an unknown id does nothing; without the extension the user is asked to install it; a successful install closes the view; a failure leaves it open |
| I18n.SupportedHasEntry | docs/js/i18n.js:8-63 | every supported code has an entry in the language table |
| I18n.EntryIsSupported | docs/js/i18n.js:8-63 | every code with an entry in the language table is supported |
| I18n.CodesHaveNoDash | docs/js/i18n.js:8-63 | no supported code contains `-` |
| I18n.CodeShape | docs/js/i18n.js:8-63 | a supported code is two or three characters without `_`, or five with a single `_` in the middle |
| I18n.LanguageOf | docs/js/i18n.js:8-63 | (definition) the language table: name, native name and direction of each supported code |
| I18n.BrowserLang | docs/js/i18n.js:72 | the browser tag keeps its length, and a tag already in the table's spelling is unchanged |
| I18n.ShortLang | docs/js/i18n.js:73 | the short form is a prefix of the tag without `_` |
| I18n.UsableSaved | docs/js/i18n.js:76 | (definition) a non-empty saved preference that the table supports |
| I18n.ResolveLanguage | docs/js/i18n.js:71-84 | the start language is always supported; a usable saved choice wins, then the exact browser tag, then its short form, and otherwise English |
| I18n.DashRoundTrip | docs/js/i18n.js:72 | writing a code's `_` as `-` and reading it back as a browser tag gives the code again |
| I18n.LangAttributeResolvesBack | docs/js/i18n.js:146 | a browser reporting the page's `lang` attribute starts in that language again |
| I18n.DisplayCode | docs/js/i18n.js:142 | the shown code is the upper-cased part before the first `_` |
| I18n.DocumentLang | docs/js/i18n.js:146 | the `lang` attribute is the code with its first `_` written as `-` |
| I18n.DocumentLangHasNoUnderscore | docs/js/i18n.js:146 | the `lang` attribute of every supported code is free of `_` |
| I18n.Direction | docs/js/i18n.js:150-159 | the direction is `rtl` exactly for ar, fa, he and ur, and `ltr` otherwise |
| I18n.SearchMatches | docs/js/i18n.js:243-250 | (definition) the lower-cased query occurs in the lower-cased native or English name |
| I18n.EmptyQueryShowsAll | docs/js/i18n.js:243-250 | an empty search shows every language |
| I18n.NameFindsItself | docs/js/i18n.js:243-250 | a language's English name, typed in any ASCII case, finds that language |
| I18n.HasTranslation | docs/js/i18n.js:123-125 | (definition) the key has a non-empty translation |
| I18n.SetsAttribute | docs/js/i18n.js:127-129 | (definition) the element names a non-empty target attribute |
| I18n.SetsTitle | docs/js/i18n.js:131 | (definition) a `TITLE` element without a target attribute |
| I18n.TranslatesTitle | docs/js/i18n.js:131-132 | (definition) a `TITLE` element whose translation is written to `document.title` |
| I18n.Translated | docs/js/i18n.js:122-137 | an element without a non-empty translation keeps its text; otherwise the translation goes to the named attribute, to the document title, or to the text |
| I18n.TitleAfter | docs/js/i18n.js:122-136 | `document.title` after the pass: unchanged when no element is a translated `<title>`, otherwise the translation of the last such element |
| I18n.TitleAfterStep | docs/js/i18n.js:131-132 | one more element changes the title only when it is a translated `<title>`, and then to its translation |
| I18n.I18n.constructor | docs/js/i18n.js:69-84 | the page starts in the resolved language with its direction; translations are applied by the separate `ApplyTranslations` |
| I18n.I18n.UpdateDocumentDirection | docs/js/i18n.js:150-159 | the document direction is `rtl` exactly for the right-to-left languages |
| I18n.I18n.ApplyTranslations | docs/js/i18n.js:121-147 | every element becomes `Translated`; elements without a translation are untouched; the title, the shown code and the `lang` attribute are updated |
| I18n.I18n.TranslateElement | docs/js/i18n.js:122-136 | one element becomes `Translated`, the others are untouched, and the title changes only for a translated `<title>` |
| I18n.I18n.ChangeLanguage | docs/js/i18n.js:264-272 | an unsupported code changes nothing; a supported one becomes current and saved, with its direction |

## Left out

- Browser plumbing is not modelled: event-listener registration, `requestAnimationFrame`, the delayed `gamepadconnected` event, `requestPointerLock`, `postMessage`, `preventDefault`, the DOM queries, `MutationObserver` and the polling timer. Each handler takes as parameters the values it reads from its event or element.
- Extension and browser APIs are not modelled: `chrome.storage`, `chrome.runtime`, `chrome.tabs`, `chrome.action` colours, `fetch`, `localStorage`, `alert`, `innerHTML`, `escapeHtml` and `localeCompare` sorting of the language list. The storage is a class whose fields are the stored keys. The extension's reply to an install request is a parameter.
- The debug surface of the page engine and `popup.js` are not part of this model.
- Messages that only relay data are not modelled: `GET_PROFILES`, `SET_ACTIVE_PROFILE`, `UPDATE_BADGE`, `GET_GAME_PROFILES`, `GET_CURRENT_GAME`, and the page's get-config and save-config relay.
- Loading translation files is not modelled, nor the English fallback embedded in the page. The translations are a parameter of the constructor.
- `renderPresets` and the card markup are not modelled. The deadzone's `%` suffix and the stringification of numbers are not modelled either.
- Numbers are Dafny `real`s, so double rounding is not modelled. The square root is defined only for the three magnitudes a stick can have.
- Case mapping covers only ASCII letters. JavaScript's `toLowerCase`/`toUpperCase` also map other scripts.
- JavaScript objects are modelled as their own properties only. Inherited names such as `constructor` are not modelled, nor the reordering of integer-like keys.
- A key with no binding reads as released. In the source such an action looks up `keyState[undefined]`, which is only true if a key code `"undefined"` was recorded.
- Gamepad.Engine.UpdateGamepad: the frame is split into helper methods (one per button group and one per stick). The source writes the same values in one function.
- Gamepad.Engine.GetGamepads: the snapshot's axes are a value. In the source they are a fresh `Float64Array` that the page could alter.
- Presets.PresetLibrary.OpenPresetModal: an unknown id clears the selection, as the source's assignment of `undefined` does. Only the view is left unchanged.
- I18n.I18n.constructor: `init` also applies the translations and builds the language selector; here applying them is the separate `ApplyTranslations` call, and the selector is not modelled.
- I18n.I18n.ChangeLanguage: the translations are not reloaded or re-applied, because loading them is not modelled. The selector's checkmark and the screen-reader announcement are left out.
- I18n.I18n.ApplyTranslations: the `.current-lang` element is assumed present.
- I18n.TitleAfter: `document.title` and the text of the `<title>` element are kept apart. In a browser, setting the title also rewrites that element's text; the model does not link the two.
