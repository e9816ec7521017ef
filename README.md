# open-cursor, modelled in Dafny

A model of the Obsidian plugin "Open in Cursor". The plugin opens the current
vault, and optionally the current file, in the Cursor editor, in one of two ways.

- **Shell command** (`openCursor`): a user template is filled in with five
  placeholders, `{{vaultpath}}`, `{{filepath}}`, `{{folderpath}}`, `{{line}}` and
  `{{ch}}`, by five chained `replaceAll` calls. The result is run as a shell
  command.
- **URL scheme** (`openCursorUrl`): one or two `cursor://file/…` URLs are opened.
  When there are two, the workspace URL comes first and then the file URL.

The plugin keeps a settings record. It loads the record by merging the stored
data over the defaults, saves it whole, and can reset it to the defaults. A
settings tab writes single fields of the record. The two text fields are trimmed
on edit and fall back to their default when left blank.

Modules:

- `Optional` (`option.dfy`): `Option`, with `GetOr` for JavaScript's `??`.
- `Text` (`text.dfy`):
  - `String.prototype.trim` over the ECMAScript whitespace set;
  - `Number.prototype.toString` on the 1-based line and column;
  - "does `q` occur in `s`".
- `Replace` (`replace.dfy`): `String.prototype.replaceAll` for a non-empty string
  pattern and a string replacement.
  - It follows ECMAScript exactly: the scan runs left to right, matches do not
    overlap, inserted text is not rescanned within a call, and the replacement's
    `$$`, `$&`, `` $` `` and `$'` patterns are expanded.
  - It comes with two independent reference definitions: a literal scan
    (`Literal`) and split/join (`Split`, `Join`).
- `Settings` (`settings.dfy`): the settings record, `DEFAULT_SETTINGS`, the load
  merge (`Object.assign`), the stored record, and the trim-then-default rule of
  the text fields.
- `Plugin` (`plugin.dfy`), from `src/main.ts`:
  - the command builder and the URL builder, as functions;
  - the plugin object as a class that holds the settings and the stored record,
    with methods for load, save, reset and the two open actions.
- `SettingsTab` (`settings_tab.dfy`): the `onChange` handlers of the settings tab,
  as methods of a class holding the plugin. Each writes one field of the
  plugin's settings and saves them.
- `ResetAliasing` (`reset_aliasing.dfy`): the settings as objects shared by
  reference, which is what `resetSettings` does as written (see Findings).

Three behaviours of the code are worth stating outright:

- **Chained calls rescan inserted text.** The five `replaceAll` calls are
  chained (src/main.ts:101-106), so text inserted by an earlier call is scanned
  by the later ones. For example, a vault path that is itself `{{filepath}}`
  ends up as the file path (`Plugin.InsertedTextIsRescanned`). Within one call,
  inserted text is not scanned again (`Replace.ReplacementNotRescanned`).
- **A blank workspace path is not defaulted when the URL is built.** The command
  template falls back to the default when it is used (src/main.ts:100). The
  workspace path falls back only when it is edited (src/settings.ts:119-121), so
  a stored empty workspace path gives the URL `cursor://file/`
  (`Plugin.EmptyWorkspaceOpensBareScheme`).
- **A non-blank template is used untrimmed.** A template without placeholders is
  the command exactly as stored (src/main.ts:100; `Plugin.EffectiveTemplate`,
  `Plugin.SubstituteNoPlaceholders`).

The host calls become parameters of the model:

- the vault adapter: `FileSystemAdapter(basePath)` or any other;
- the file the action targets: the active file by default, or the file of the
  context menu;
- the cursor of the active Markdown editor;
- the data `loadData` returns: absent, or a record in which every key may be
  missing.

## Model

| member | source | states |
|---|---|---|
| Optional.Option.GetOr | src/main.ts:92-93 | `x ?? d`: the value when present, `d` when absent |
| Text.TrimStart | src/main.ts:100 | leading whitespace removal: the result is a suffix, only whitespace was dropped, and it starts with non-whitespace or is empty |
| Text.TrimEnd | src/main.ts:100 | trailing whitespace removal: the result is a prefix, only whitespace was dropped, and it ends with non-whitespace or is empty |
| Text.Trim | src/main.ts:100 | `trim()`: the result is a contiguous piece of the input with only whitespace before and after it, and it is empty or starts and ends with non-whitespace |
| Text.BlankIffAllWhitespace | src/main.ts:100 | `s.trim() === ""` holds exactly when every character of `s` is ECMAScript whitespace |
| Text.TrimIdempotent | src/settings.ts:91 | trimming an already trimmed value changes nothing |
| Text.TrimOfTrimmed | src/settings.ts:28 | a string that starts and ends with non-whitespace is its own trim and is not blank |
| Text.DigitChar | src/main.ts:105-106 | a digit below 10 becomes the decimal character with that value |
| Text.NatToString | src/main.ts:105-106 | `toString()` of a non-negative integer: at least one character, all decimal digits, no leading zero |
| Text.NatToStringRoundTrip | src/main.ts:105-106 | reading the decimal text of `n` back gives `n` |
| Text.NoOccurrenceWithoutFirstChar | src/main.ts:101-106 | a pattern whose first character is absent from `s` does not occur in `s` |
| Text.NoOccurrenceAroundSeparator | src/main.ts:101-106 | a character missing from the pattern cannot lie inside a match, so the pattern occurs in `a + c + b` only if it occurs in `a` or in `b` |
| Replace.Substitution | src/main.ts:101-106 | GetSubstitution for a string pattern: `$$`, `$&`, `` $` `` and `$'` expand and every other character stands for itself; given its meaning by SubstitutionLiteral and the four `Dollar…` lemmas |
| Replace.Scan | src/main.ts:101-106 | the left-to-right, non-overlapping scan of `replaceAll`; given its meaning by NoMatchScanUnchanged and ScanIsLiteral |
| Replace.ReplaceAll | src/main.ts:101-106 | `String.prototype.replaceAll` with a string pattern; given its meaning by ReplaceAllReplacesEveryOccurrence, ReplaceAllIsLiteral, NoMatchUnchanged and ReplacementNotRescanned |
| Replace.SubstitutionLiteral | src/main.ts:101-106 | a replacement without `$` is inserted exactly as written |
| Replace.NoMatchScanUnchanged | src/main.ts:101-106 | text with no match of the pattern is copied unchanged, whatever the replacement |
| Replace.NoMatchUnchanged | src/main.ts:101-106 | `replaceAll` on a string in which the pattern does not occur returns it unchanged |
| Replace.ScanIsLiteral | src/main.ts:101-106 | with a `$`-free replacement, the text scanned so far plays no part: the scan equals the literal reference scan |
| Replace.ReplaceAllIsLiteral | src/main.ts:101-106 | `replaceAll` with a `$`-free replacement equals the literal reference scan |
| Replace.PrefixCopiedOrReplaced | src/main.ts:101-106 | every prefix of the output is copied from the input or holds the first character of the replacement |
| Replace.NoMatchAfterPrefix | src/main.ts:101-106 | no match in `x + g` if none in `g` and none starting inside `x` |
| Replace.NoMatchInSuffix | src/main.ts:101-106 | a suffix of a string without matches has none |
| Replace.NoMatchStartsInReplacement | src/main.ts:101-106 | a replacement sharing no character with `q` starts no match of `q` |
| Replace.NoMatchAtCopiedChar | src/main.ts:101-106 | a copied character that is not a match start cannot start a match in the output |
| Replace.NoOccurrenceInLiteral | src/main.ts:101-106 | for a non-empty replacement sharing no character with `q`, and `q` the pattern or absent from the input, the literal scan leaves no occurrence of `q` (an empty replacement can join two halves into a new occurrence) |
| Replace.NoOccurrenceAfter | src/main.ts:101-106 | for a non-empty, `$`-free replacement sharing no character with `q`: if `q` is the pattern, no occurrence is left; if `q` is absent from the input, it is absent from the output |
| Replace.Split | src/main.ts:101-106 | split reference definition: always at least one piece |
| Replace.JoinCons | src/main.ts:101-106 | prepending text to the first piece prepends it to the join |
| Replace.SplitFirstIsPrefix | src/main.ts:101-106 | the first piece of a split is a prefix of the string |
| Replace.SplitJoin | src/main.ts:101-106 | joining the pieces with the pattern gives back the string |
| Replace.SplitPiecesFree | src/main.ts:101-106 | no piece of the split contains the pattern |
| Replace.LiteralIsSplitJoin | src/main.ts:101-106 | the literal scan equals split-then-join-with-replacement |
| Replace.ReplaceAllReplacesEveryOccurrence | src/main.ts:101-106 | every occurrence is replaced: the string is its pattern-free pieces joined by the pattern, and the output is the same pieces joined by the replacement |
| Replace.NoMatchAcrossBorder | src/main.ts:101-106 | no match straddles a border beside which a character is not in the pattern |
| Replace.LiteralAppend | src/main.ts:101-106 | the literal scan distributes over a concatenation whose border cannot hide a match |
| Replace.LiteralAppendShort | src/main.ts:101-106 | a left part shorter than the pattern is copied unchanged |
| Replace.ReplaceAllAppend | src/main.ts:101-106 | `replaceAll` distributes over a concatenation whose border cannot hide a match |
| Replace.ReplaceAllOfPiece | src/main.ts:101-106 | for a `$`-free replacement the pattern itself becomes the replacement; for any replacement a piece no longer than the pattern and different from it, or without its first character, is unchanged |
| Replace.ReplacementNotRescanned | src/main.ts:102 | text inserted by a call is not scanned again by that call: replacing `p` by `p + p` gives `p + p`, which still holds `p` |
| Replace.ReplaceAllAroundSeparator | src/main.ts:101-106 | for a `$`-free replacement, `replaceAll` works separately on either side of a character that is not in the pattern |
| Replace.DollarAmpersandInsertsMatch | src/main.ts:102 | `$&` in the replacement inserts the matched text |
| Replace.DollarBacktickInsertsPrefix | src/main.ts:102 | `` $` `` inserts the text before the match |
| Replace.DollarQuoteInsertsSuffix | src/main.ts:102 | `$'` inserts the text after the match |
| Replace.DollarDollarIsDollar | src/main.ts:102 | `$$` inserts one `$`, and `$1` stands for itself |
| Settings.DefaultsAre | src/settings.ts:24-32 | four switches on, insiders off, the template `cursor "{{vaultpath}}" "{{vaultpath}}/{{filepath}}"` and the workspace `{{vaultpath}}`, both trimmed and not blank |
| Settings.DefaultTemplateText | src/settings.ts:28 | the default template is the literal `cursor "{{vaultpath}}" "{{vaultpath}}/{{filepath}}"` |
| Settings.DefaultStringsTrimmed | src/settings.ts:28-30 | both default strings are their own trim and are not blank |
| Settings.DefaultTemplateNotBlank | src/settings.ts:28 | the default template is not blank |
| Settings.Merge | src/main.ts:152 | `Object.assign({}, DEFAULT_SETTINGS, data)`; given its meaning by MergeTakesLoadedOrDefault, SaveThenLoad and LoadEmpty |
| Settings.Stored | src/main.ts:155-157 | `saveData(settings)` writes every key |
| Settings.MergeTakesLoadedOrDefault | src/main.ts:152 | after the merge, each key present in the data has its loaded value, each absent key keeps the default, and no data gives the defaults |
| Settings.SaveThenLoad | src/main.ts:152-157 | loading what was saved gives back the saved settings |
| Settings.LoadEmpty | src/main.ts:152 | an empty stored record loads as the defaults |
| Settings.Normalised | src/settings.ts:91-92 | blank input gives the fallback; otherwise the trimmed input, which is not empty |
| Settings.NormalisedIsTrimmedAndNotBlank | src/settings.ts:119-120 | with a trimmed, non-blank fallback the stored text is never blank, is trimmed, and normalising it again changes nothing |
| Settings.Shown | src/settings.ts:89 | a text field shows the stored value, or the default when it is empty |
| Settings.ShownOpenFile | src/settings.ts:105 | with the defaults kept as a value, the "Open current file" toggle always shows on; as written, a reset shares the defaults object and a later edit can make it show off (see Findings) |
| Plugin.FilePath | src/main.ts:92 | `file?.path ?? ""`: the targeted file's path, or empty without one; used by ShellCommand, Urls and UrlsWithFile |
| Plugin.FolderPath | src/main.ts:93 | `file?.parent?.path ?? ""`: the parent folder's path, or empty without a file or parent; used by ShellCommand |
| Plugin.CursorLine | src/main.ts:97 | 1-based line: the cursor line plus one, or 1 without an editor; always at least 1 |
| Plugin.CursorCh | src/main.ts:98 | 1-based column: the cursor column plus one, or 1 without an editor; always at least 1 |
| Plugin.EffectiveTemplate | src/main.ts:100 | a blank template is replaced by the default; a non-blank one is used untrimmed; the result is never blank |
| Plugin.Substitute | src/main.ts:101-106 | the five chained `replaceAll` calls in source order; given its meaning by SubstituteNoPlaceholders, SubstituteLeavesNoLineOrCh, DefaultCommand, FileLineChCommand and InsertedTextIsRescanned |
| Plugin.ShellCommand | src/main.ts:86-88 | no command exactly when the vault is not on the file system |
| Plugin.SubstituteNoPlaceholders | src/main.ts:101-106 | a template containing none of the five placeholders is the command unchanged |
| Plugin.DigitsAreNotPlaceholderChars | src/main.ts:105-106 | decimal text shares no character with a digit-free placeholder |
| Plugin.SubstituteLeavesNoLineOrCh | src/main.ts:105-106 | the command contains no `{{line}}` and no `{{ch}}`, whatever the template and paths |
| Plugin.DefaultTemplateWithVault | src/main.ts:102 | for a `$`-free vault path, the first call on the default template puts the vault path in both places |
| Plugin.DefaultTemplateWithFile | src/main.ts:103 | for a vault path without `{` and a `$`-free file path, the second call puts the file path after the vault path |
| Plugin.NoBraceInCommand | src/settings.ts:28 | the default command built from brace-free paths has no `{` |
| Plugin.DefaultCommand | src/main.ts:100-106 | the default settings give `cursor "v" "v/f"` for any vault path `v` and file path `f` free of `{` and `$`, whatever the folder and cursor |
| Plugin.FileLineChCommand | src/main.ts:97-106 | for a file path without `{` and `$`, the template `{{filepath}}:{{line}}:{{ch}}` gives `f:line:ch` with the 1-based position in decimal |
| Plugin.FileLineChVaultAndFile | src/main.ts:102-103 | for a `$`-free file path, the first two calls on `{{filepath}}:{{line}}:{{ch}}` give `f:{{line}}:{{ch}}` |
| Plugin.FileLineChFolder | src/main.ts:104 | for a file path without `{`, the third call finds nothing to replace |
| Plugin.FileLineChLine | src/main.ts:105 | for a file path without `{`, the fourth call puts the line number in place of `{{line}}` |
| Plugin.FileLineChCh | src/main.ts:106 | for a file path and line text without `{`, the fifth call puts the column in place of `{{ch}}` |
| Plugin.InsertedTextIsRescanned | src/main.ts:102-103 | for a file path without `{` and `$`, a vault path equal to `{{filepath}}` is replaced by the file path in the next call, so the command is the file path |
| Plugin.SubstituteLineOnly | src/main.ts:105 | `{{line}}` alone becomes the line in decimal |
| Plugin.LineTemplateIsUsed | src/main.ts:100 | `{{line}}` is not blank, so it is used as the template |
| Plugin.LineTemplate | src/main.ts:97-105 | the template `{{line}}` gives the decimal text of the 1-based line, which reads back as that line |
| Plugin.Urls | src/main.ts:119-148 | no URL off the file system; two URLs with `openFile`, otherwise one; every URL starts with `cursor://file/` |
| Plugin.UrlsWithoutFile | src/main.ts:145-147 | with `openFile` off, only `cursor://file/` + vault path |
| Plugin.UrlsWithFile | src/main.ts:134-144 | with `openFile` on: the workspace URL with every `{{vaultpath}}` replaced, then `cursor://file/` + vault + `/` + file path, ending in `/` without an active file |
| Plugin.DefaultUrls | src/main.ts:138 | for a vault path without `$`, the defaults open the vault, then the file inside it (a `$&` in the path would be expanded in the workspace URL) |
| Plugin.EmptyWorkspaceOpensBareScheme | src/main.ts:138-139 | an empty stored workspace path opens the bare `cursor://file/` |
| Plugin.OpenCursorPlugin.constructor | src/main.ts:151-153 | a new plugin holds the stored data merged over the defaults |
| Plugin.OpenCursorPlugin.LoadSettings | src/main.ts:151-153 | the settings become the stored data merged over the defaults; the store is unchanged |
| Plugin.OpenCursorPlugin.SaveSettings | src/main.ts:155-157 | the store holds every key of the settings; the settings are unchanged |
| Plugin.OpenCursorPlugin.ResetSettings | src/main.ts:191-195 | with settings kept as a value: the settings equal the defaults and are saved; this is the copy-on-reset reading, and the code as written shares the defaults object instead (see Findings, `ResetAliasing.ResetEditResetAsWritten`) |
| Plugin.OpenCursorPlugin.OpenCursor | src/main.ts:85-114 | the command built is `ShellCommand` of the current settings, and it holds no `{{line}}` and no `{{ch}}` |
| Plugin.OpenCursorPlugin.OpenCursorUrl | src/main.ts:119-149 | the URLs opened, in order, are `Urls` of the current settings |
| Plugin.SaveThenReload | src/main.ts:151-157 | saving then loading leaves the settings as they were, and the store holds every key of them |
| SettingsTab.OpenCursorSettingsTab.constructor | src/settings.ts:37-40 | the tab edits the given plugin |
| SettingsTab.OpenCursorSettingsTab.SetRibbonIcon | src/settings.ts:53-56 | only `ribbonIcon` changes, and the settings are saved |
| SettingsTab.OpenCursorSettingsTab.SetRibbonCommandUsesCursor | src/settings.ts:65-67 | only `ribbonCommandUsesCursor` changes, and the settings are saved |
| SettingsTab.OpenCursorSettingsTab.SetShowFileContextMenuItem | src/settings.ts:76-78 | only `showFileContextMenuItem` changes, and the settings are saved |
| SettingsTab.OpenCursorSettingsTab.SetExecuteTemplate | src/settings.ts:90-94 | with the defaults kept as a value: only the template changes, to the trimmed input or the default; it is never blank and is used as stored (as written, after a reset the fallback is the shared defaults object's current value; see Findings) |
| SettingsTab.OpenCursorSettingsTab.SetOpenFile | src/settings.ts:106-108 | only `openFile` changes, and the settings are saved |
| SettingsTab.OpenCursorSettingsTab.SetWorkspacePath | src/settings.ts:118-122 | with the defaults kept as a value: only the workspace path changes, to the trimmed input or `{{vaultpath}}`; it is never blank (as written, after a reset the fallback is the shared defaults object's current value; see Findings) |
| SettingsTab.OpenCursorSettingsTab.SetUseUrlInsiders | src/settings.ts:133-135 | only `useUrlInsiders` changes, and the settings are saved |
| ResetAliasing.SettingsObject.FromRecord | src/main.ts:152 | a new settings object holds the given record |
| ResetAliasing.AliasingPlugin.constructor | src/main.ts:152 | the loaded settings are a new object, distinct from the defaults object |
| ResetAliasing.AliasingPlugin.ResetSettings | src/main.ts:193 | as written: the settings refer to the defaults object itself |
| ResetAliasing.AliasingPlugin.SetRibbonIcon | src/settings.ts:54 | the handler writes the field of whichever object the settings refer to |
| ResetAliasing.ResetEditResetAsWritten | src/main.ts:193 | reset, switch the ribbon icon off, reset: the icon stays off and the settings are not the defaults |
| ResetAliasing.ResetEditResetCorrected | src/main.ts:191-195 | with the defaults copied on reset, the same steps end on the defaults |

Proof helpers without a row: `Replace.ScanStep`, `Replace.LiteralStep` and
`Replace.SplitStep` unfold one step of `Scan`, `Literal` and `Split`.
`Replace.SplitJoinMatchStep`, `Replace.SplitJoinCopyStep`,
`Replace.JoinOfSplitAtMatch`, `Replace.LiteralAppendEmpty`,
`Replace.LiteralAppendMatchStep`, `Replace.LiteralAppendCopyStep` and
`Replace.LiteralAppendShortStep` are the single induction steps of `SplitJoin`,
`LiteralAppend` and `LiteralAppendShort`.
`Text.TrimmedPiece` locates the trimmed text inside the input for `Text.Trim`.

## Left out

- Running the command (`child_process.exec` and its error log) is left out. The model stops at the command string.
- Opening URLs (`window.open`) is left out, and so is the 200 ms delay before the second one. The model gives the URLs in the order they are opened.
- Host glue is left out:
  - plugin loading, commands, the SVG icon, the ribbon icon and `refreshIconRibbon`;
  - the file context menu (`fileMenuHandler`);
  - the settings tab's controls and text.
- The hot-reload detection (`DEV`), `reload` and every `console` message are left out, because they only log or restart the host plugin.
- `ribbonCommandUsesCursor` and `useUrlInsiders` are stored and edited but never read, so the model gives them no behaviour.
- Keys in the stored data that are not settings are left out. `Object.assign` keeps them, and so does a stored value of the wrong type; the model's stored record has only the seven settings, each of its own type.
- The promises of `loadData`/`saveData` are left out. Saving is modelled as an immediate update of the stored record.
- Strings are sequences of characters, not of UTF-16 code units. Trimming and matching agree for characters in the Basic Multilingual Plane.
- Line and column numbers are unbounded naturals. `toString` of a number too large for exact representation as a double is not modelled.
- Replace.NoOccurrenceAfter, Replace.ReplaceAllReplacesEveryOccurrence and Replace.ReplaceAllAppend: stated only for replacements without `$`. With `$`, the inserted text depends on the match and on the text around it; the `$` cases are shown by the four `Dollar…` lemmas.
- Plugin.UrlsWithFile: the split/join form of the workspace URL is stated only for a vault path without `$`.
- Plugin.DefaultCommand: stated for vault and file paths without `{` and `$`. A `{` can form a later placeholder, because the calls are chained. A `$` is expanded by `replaceAll`.
- ResetAliasing.AliasingPlugin: models only the object sharing. Saving is left to `Plugin.OpenCursorPlugin`.

## Findings

| source | as written | input that shows it | evidently intended | confidence | as-written member | corrected member |
|---|---|---|---|---|---|---|
| src/main.ts:193 | `resetSettings` makes `this.settings` the `DEFAULT_SETTINGS` object itself. The settings tab then writes fields of `this.settings` in place, which changes the shared defaults. The reset command is registered only in development mode (src/main.ts:66-77). The same sharing makes the "Open current file" toggle, shown as `openFile \|\| DEFAULT_SETTINGS.openFile`, show off after a reset followed by switching it off. It also makes the text fields' fallbacks `DEFAULT_SETTINGS.executeTemplate` and `DEFAULT_SETTINGS.workspacePath` (src/settings.ts:92, 120) the last value typed: after a reset, typing `/w` as the workspace path and then clearing the field keeps `/w`, not `{{vaultpath}}`. | reset settings, switch "Display Ribbon Icon" off, reset settings again: the ribbon icon stays off | a reset gives a fresh copy of the defaults, so a later reset restores them | not executed | ResetAliasing.ResetEditResetAsWritten | ResetAliasing.ResetEditResetCorrected |
