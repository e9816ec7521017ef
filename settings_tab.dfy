/**
 * src/settings.ts, `OpenCursorSettingsTab`: the settings tab writes the value
 * of each control into the plugin's settings object, in place, and saves the
 * whole record. The two text fields trim what was typed and fall back to the
 * default when nothing is left; each toggle writes its own field.
 */
module SettingsTab {
  import opened Optional
  import opened Text
  import opened Settings
  import opened Plugin

  class OpenCursorSettingsTab {
    const plugin: OpenCursorPlugin

    constructor(plugin: OpenCursorPlugin)
      ensures this.plugin == plugin
    {
      this.plugin := plugin;
    }

    /** "Display Ribbon Icon". */
    method SetRibbonIcon(value: bool)
      modifies plugin
      ensures plugin.settings == old(plugin.settings).(ribbonIcon := value)
      ensures plugin.data == Some(Stored(plugin.settings))
    {
      plugin.settings := plugin.settings.(ribbonIcon := value);
      plugin.SaveSettings();
    }

    /** "Ribbon opens via 'cursor' command". */
    method SetRibbonCommandUsesCursor(value: bool)
      modifies plugin
      ensures plugin.settings == old(plugin.settings).(ribbonCommandUsesCursor := value)
      ensures plugin.data == Some(Stored(plugin.settings))
    {
      plugin.settings := plugin.settings.(ribbonCommandUsesCursor := value);
      plugin.SaveSettings();
    }

    /** "Display "Open in Cursor" option for files/folders". */
    method SetShowFileContextMenuItem(value: bool)
      modifies plugin
      ensures plugin.settings == old(plugin.settings).(showFileContextMenuItem := value)
      ensures plugin.data == Some(Stored(plugin.settings))
    {
      plugin.settings := plugin.settings.(showFileContextMenuItem := value);
      plugin.SaveSettings();
    }

    /** The command template: trimmed, or the default template when blank.
        What is stored is never blank and has no whitespace at either end, so
        the command is built from exactly what was stored. */
    method SetExecuteTemplate(value: string)
      modifies plugin
      ensures plugin.settings == old(plugin.settings).(executeTemplate := Normalised(value, DefaultExecuteTemplate))
      ensures !Blank(plugin.settings.executeTemplate)
      ensures Trim(plugin.settings.executeTemplate) == plugin.settings.executeTemplate
      ensures EffectiveTemplate(plugin.settings.executeTemplate) == plugin.settings.executeTemplate
      ensures plugin.data == Some(Stored(plugin.settings))
    {
      var trimmed := Trim(value);
      if trimmed == [] {
        trimmed := DefaultExecuteTemplate;
      }
      plugin.settings := plugin.settings.(executeTemplate := trimmed);
      plugin.SaveSettings();
      DefaultsAre();
      NormalisedIsTrimmedAndNotBlank(value, DefaultExecuteTemplate);
    }

    /** "Open current file". */
    method SetOpenFile(value: bool)
      modifies plugin
      ensures plugin.settings == old(plugin.settings).(openFile := value)
      ensures plugin.data == Some(Stored(plugin.settings))
    {
      plugin.settings := plugin.settings.(openFile := value);
      plugin.SaveSettings();
    }

    /** "Path to Cursor Workspace": trimmed, or `{{vaultpath}}` when blank. */
    method SetWorkspacePath(value: string)
      modifies plugin
      ensures plugin.settings == old(plugin.settings).(workspacePath := Normalised(value, VaultPathPlaceholder))
      ensures !Blank(plugin.settings.workspacePath)
      ensures Trim(plugin.settings.workspacePath) == plugin.settings.workspacePath
      ensures plugin.data == Some(Stored(plugin.settings))
    {
      var trimmed := Trim(value);
      if trimmed == [] {
        trimmed := VaultPathPlaceholder;
      }
      plugin.settings := plugin.settings.(workspacePath := trimmed);
      plugin.SaveSettings();
      DefaultsAre();
      NormalisedIsTrimmedAndNotBlank(value, VaultPathPlaceholder);
    }

    /** "Open Cursor using a 'cursor-insiders://' URL". */
    method SetUseUrlInsiders(value: bool)
      modifies plugin
      ensures plugin.settings == old(plugin.settings).(useUrlInsiders := value)
      ensures plugin.data == Some(Stored(plugin.settings))
    {
      plugin.settings := plugin.settings.(useUrlInsiders := value);
      plugin.SaveSettings();
    }
  }
}
