/**
 * The plugin's settings record, its defaults, the merge performed when the
 * stored settings are loaded, and the trim-then-default rule the text fields of
 * the settings tab apply (src/settings.ts, src/main.ts).
 */
module Settings {
  import opened Optional
  import opened Text

  const VaultPathPlaceholder: string := "{{vaultpath}}"
  const FilePathPlaceholder: string := "{{filepath}}"
  const FolderPathPlaceholder: string := "{{folderpath}}"
  const LinePlaceholder: string := "{{line}}"
  const ChPlaceholder: string := "{{ch}}"

  /** `OpenCursorSettings`. `ribbonCommandUsesCursor` and `useUrlInsiders` are
      stored and edited but nothing reads them. */
  datatype OpenCursorSettings = OpenCursorSettings(
    ribbonIcon: bool,
    ribbonCommandUsesCursor: bool,
    showFileContextMenuItem: bool,
    executeTemplate: string,
    openFile: bool,
    workspacePath: string,
    useUrlInsiders: bool)

  /** `cursor "{{vaultpath}}" "{{vaultpath}}/{{filepath}}"`, written in pieces
      so that the verifier can index it cheaply. */
  const DefaultExecuteTemplate: string :=
    "cursor \"" + VaultPathPlaceholder + "\" \"" + VaultPathPlaceholder + "/" + FilePathPlaceholder + "\""

  /** `DEFAULT_SETTINGS`. */
  const DefaultSettings: OpenCursorSettings := OpenCursorSettings(
    ribbonIcon := true,
    ribbonCommandUsesCursor := true,
    showFileContextMenuItem := true,
    executeTemplate := DefaultExecuteTemplate,
    openFile := true,
    workspacePath := VaultPathPlaceholder,
    useUrlInsiders := false)

  /** The defaults: four switches on, the insiders switch off, the default
      template, and the vault root as workspace; both default strings are
      already trimmed and not blank. */
  lemma DefaultsAre()
    ensures DefaultSettings.ribbonIcon && DefaultSettings.ribbonCommandUsesCursor
    ensures DefaultSettings.showFileContextMenuItem && DefaultSettings.openFile
    ensures !DefaultSettings.useUrlInsiders
    ensures DefaultSettings.executeTemplate == DefaultExecuteTemplate
    ensures DefaultExecuteTemplate == "cursor \"{{vaultpath}}\" \"{{vaultpath}}/{{filepath}}\""
    ensures DefaultSettings.workspacePath == "{{vaultpath}}"
    ensures Trim(DefaultSettings.executeTemplate) == DefaultSettings.executeTemplate
    ensures Trim(DefaultSettings.workspacePath) == DefaultSettings.workspacePath
    ensures !Blank(DefaultSettings.executeTemplate) && !Blank(DefaultSettings.workspacePath)
  {
    DefaultTemplateText();
    DefaultStringsTrimmed();
  }

  /** Both default strings are their own trim, and neither is blank. */
  lemma DefaultStringsTrimmed()
    ensures Trim(DefaultExecuteTemplate) == DefaultExecuteTemplate && !Blank(DefaultExecuteTemplate)
    ensures Trim(VaultPathPlaceholder) == VaultPathPlaceholder && !Blank(VaultPathPlaceholder)
  {
    TrimOfTrimmed(DefaultExecuteTemplate);
    TrimOfTrimmed(VaultPathPlaceholder);
  }

  /** The default template, written out as one literal. */
  lemma DefaultTemplateText()
    ensures DefaultExecuteTemplate == "cursor \"{{vaultpath}}\" \"{{vaultpath}}/{{filepath}}\""
  {
    var t1 := "cursor \"" + VaultPathPlaceholder;
    assert t1 == "cursor \"{{vaultpath}}";
    var t2 := t1 + "\" \"" + VaultPathPlaceholder;
    assert t2 == "cursor \"{{vaultpath}}\" \"{{vaultpath}}";
    var t3 := t2 + "/" + FilePathPlaceholder + "\"";
    assert t3 == "cursor \"{{vaultpath}}\" \"{{vaultpath}}/{{filepath}}\"";
  }

  /** The default template is not blank, so it is used as it is. */
  lemma DefaultTemplateNotBlank()
    ensures DefaultSettings.executeTemplate == DefaultExecuteTemplate && !Blank(DefaultExecuteTemplate)
  {
    TrimOfTrimmed(DefaultExecuteTemplate);
  }

  /** What `loadData()` hands back: nothing at all, or a record in which any of
      the keys may be missing. */
  datatype StoredSettings = StoredSettings(
    ribbonIcon: Option<bool>,
    ribbonCommandUsesCursor: Option<bool>,
    showFileContextMenuItem: Option<bool>,
    executeTemplate: Option<string>,
    openFile: Option<bool>,
    workspacePath: Option<string>,
    useUrlInsiders: Option<bool>)

  /** `Object.assign({}, base, data)`: every key present in `data` takes its
      loaded value, every other key keeps the value in `base`. */
  function Merge(base: OpenCursorSettings, data: Option<StoredSettings>): (r: OpenCursorSettings)
  {
    match data
    case None => base
    case Some(d) =>
      OpenCursorSettings(
        ribbonIcon := d.ribbonIcon.GetOr(base.ribbonIcon),
        ribbonCommandUsesCursor := d.ribbonCommandUsesCursor.GetOr(base.ribbonCommandUsesCursor),
        showFileContextMenuItem := d.showFileContextMenuItem.GetOr(base.showFileContextMenuItem),
        executeTemplate := d.executeTemplate.GetOr(base.executeTemplate),
        openFile := d.openFile.GetOr(base.openFile),
        workspacePath := d.workspacePath.GetOr(base.workspacePath),
        useUrlInsiders := d.useUrlInsiders.GetOr(base.useUrlInsiders))
  }

  /** The record `saveData(settings)` writes: every key present. */
  function Stored(s: OpenCursorSettings): (d: StoredSettings)
    ensures d.ribbonIcon.Some? && d.ribbonCommandUsesCursor.Some? && d.showFileContextMenuItem.Some?
    ensures d.executeTemplate.Some? && d.openFile.Some? && d.workspacePath.Some? && d.useUrlInsiders.Some?
  {
    StoredSettings(Some(s.ribbonIcon), Some(s.ribbonCommandUsesCursor), Some(s.showFileContextMenuItem),
                   Some(s.executeTemplate), Some(s.openFile), Some(s.workspacePath), Some(s.useUrlInsiders))
  }

  /** After the merge, a key present in the loaded data has the loaded value and
      an absent key has the default's value; with no data at all the result is
      the defaults. */
  lemma MergeTakesLoadedOrDefault(base: OpenCursorSettings, data: Option<StoredSettings>)
    ensures data.None? ==> Merge(base, data) == base
    ensures data.Some? ==>
      var d, r := data.value, Merge(base, data);
      && (d.ribbonIcon.Some? ==> r.ribbonIcon == d.ribbonIcon.value)
      && (d.ribbonIcon.None? ==> r.ribbonIcon == base.ribbonIcon)
      && (d.ribbonCommandUsesCursor.Some? ==> r.ribbonCommandUsesCursor == d.ribbonCommandUsesCursor.value)
      && (d.ribbonCommandUsesCursor.None? ==> r.ribbonCommandUsesCursor == base.ribbonCommandUsesCursor)
      && (d.showFileContextMenuItem.Some? ==> r.showFileContextMenuItem == d.showFileContextMenuItem.value)
      && (d.showFileContextMenuItem.None? ==> r.showFileContextMenuItem == base.showFileContextMenuItem)
      && (d.executeTemplate.Some? ==> r.executeTemplate == d.executeTemplate.value)
      && (d.executeTemplate.None? ==> r.executeTemplate == base.executeTemplate)
      && (d.openFile.Some? ==> r.openFile == d.openFile.value)
      && (d.openFile.None? ==> r.openFile == base.openFile)
      && (d.workspacePath.Some? ==> r.workspacePath == d.workspacePath.value)
      && (d.workspacePath.None? ==> r.workspacePath == base.workspacePath)
      && (d.useUrlInsiders.Some? ==> r.useUrlInsiders == d.useUrlInsiders.value)
      && (d.useUrlInsiders.None? ==> r.useUrlInsiders == base.useUrlInsiders)
  {
  }

  /** Saving then loading gives back the settings that were saved, whatever the
      defaults are. */
  lemma SaveThenLoad(base: OpenCursorSettings, s: OpenCursorSettings)
    ensures Merge(base, Some(Stored(s))) == s
  {
  }

  /** An empty stored record leaves the defaults as they are. */
  lemma LoadEmpty(base: OpenCursorSettings)
    ensures Merge(base, Some(StoredSettings(None, None, None, None, None, None, None))) == base
  {
  }

  /** The `onChange` rule of the two text fields: trim the input, and fall back
      to `fallback` when nothing is left. */
  function Normalised(value: string, fallback: string): (r: string)
    ensures Blank(value) ==> r == fallback
    ensures !Blank(value) ==> r == Trim(value) && r != []
  {
    var t := Trim(value);
    if t == [] then fallback else t
  }

  /** With a trimmed, non-blank fallback, what a text field stores is never
      blank, has no whitespace at either end, and normalising it again changes
      nothing. */
  lemma NormalisedIsTrimmedAndNotBlank(value: string, fallback: string)
    requires !Blank(fallback) && Trim(fallback) == fallback
    ensures !Blank(Normalised(value, fallback))
    ensures Trim(Normalised(value, fallback)) == Normalised(value, fallback)
    ensures Normalised(Normalised(value, fallback), fallback) == Normalised(value, fallback)
  {
    if !Blank(value) {
      TrimIdempotent(value);
    }
  }

  /** The value a text field shows: `stored || default`, so an empty stored
      string shows the default. */
  function Shown(stored: string, default: string): (r: string)
    ensures stored != [] ==> r == stored
    ensures stored == [] ==> r == default
  {
    if stored == [] then default else stored
  }

  /** The "Open current file" toggle shows `openFile || DEFAULT_SETTINGS.openFile`,
      which is on whatever is stored. */
  function ShownOpenFile(s: OpenCursorSettings): (shown: bool)
    ensures shown
  {
    s.openFile || DefaultSettings.openFile
  }
}
