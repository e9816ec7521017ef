/**
 * `resetSettings` (src/main.ts:193) assigns the `DEFAULT_SETTINGS` object
 * itself to `this.settings`, and the settings tab then writes fields of
 * `this.settings` in place. This module models those objects by reference, to
 * show that after a reset, an edit and a second reset the settings are no
 * longer the defaults; the value-copying `OpenCursorPlugin.ResetSettings` is
 * the intended behaviour.
 */
module ResetAliasing {
  import opened Optional
  import opened Settings
  import Plugin
  import SettingsTab

  /** A settings object as the program holds it: its fields are updated in
      place, and every reference to it sees the update. */
  class SettingsObject {
    var ribbonIcon: bool
    var ribbonCommandUsesCursor: bool
    var showFileContextMenuItem: bool
    var executeTemplate: string
    var openFile: bool
    var workspacePath: string
    var useUrlInsiders: bool

    /** A fresh object holding `s` (an object literal, or `Object.assign({}, …)`). */
    constructor FromRecord(s: OpenCursorSettings)
      ensures Value() == s
    {
      ribbonIcon := s.ribbonIcon;
      ribbonCommandUsesCursor := s.ribbonCommandUsesCursor;
      showFileContextMenuItem := s.showFileContextMenuItem;
      executeTemplate := s.executeTemplate;
      openFile := s.openFile;
      workspacePath := s.workspacePath;
      useUrlInsiders := s.useUrlInsiders;
    }

    /** The record the object currently holds. */
    function Value(): OpenCursorSettings
      reads this
    {
      OpenCursorSettings(ribbonIcon, ribbonCommandUsesCursor, showFileContextMenuItem, executeTemplate,
                         openFile, workspacePath, useUrlInsiders)
    }
  }

  /** The plugin with its settings held by reference, next to the shared
      `DEFAULT_SETTINGS` object. */
  class AliasingPlugin {
    const defaults: SettingsObject
    var settings: SettingsObject

    /** `loadSettings` copies the defaults and the stored keys into a new object. */
    constructor(data: Option<StoredSettings>)
      ensures fresh(defaults) && fresh(settings) && settings != defaults
      ensures defaults.Value() == DefaultSettings
      ensures settings.Value() == Merge(DefaultSettings, data)
    {
      defaults := new SettingsObject.FromRecord(DefaultSettings);
      settings := new SettingsObject.FromRecord(Merge(DefaultSettings, data));
    }

    /** `resetSettings` as written: `settings` now refers to the defaults
        object itself. */
    method ResetSettings()
      modifies this
      ensures settings == defaults
    {
      settings := defaults;
    }

    /** The "Display Ribbon Icon" handler: writes the field of whatever object
        `settings` refers to. */
    method SetRibbonIcon(value: bool)
      modifies settings
      ensures settings.Value() == old(settings.Value()).(ribbonIcon := value)
    {
      settings.ribbonIcon := value;
    }
  }

  /** As written: reset, switch the ribbon icon off, reset again; the icon
      stays off, because the edit changed the defaults object. */
  method ResetEditResetAsWritten() returns (r: OpenCursorSettings)
    ensures !r.ribbonIcon && r != DefaultSettings
  {
    var plugin := new AliasingPlugin(None);
    plugin.ResetSettings();
    plugin.SetRibbonIcon(false);
    plugin.ResetSettings();
    r := plugin.settings.Value();
  }

  /** With the defaults copied on reset, the same steps end on the defaults. */
  method ResetEditResetCorrected() returns (r: OpenCursorSettings)
    ensures r == DefaultSettings
  {
    var plugin := new Plugin.OpenCursorPlugin(None);
    var tab := new SettingsTab.OpenCursorSettingsTab(plugin);
    plugin.ResetSettings();
    tab.SetRibbonIcon(false);
    plugin.ResetSettings();
    r := plugin.settings;
  }
}
