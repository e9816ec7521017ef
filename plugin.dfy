/**
 * src/main.ts: the plugin object, which holds the settings, builds the shell
 * command that opens the vault in Cursor, and builds the `cursor://` URLs it
 * opens instead when asked to use the URL scheme.
 */
module Plugin {
  import opened Optional
  import opened Text
  import opened Replace
  import opened Settings

  /** The vault's storage backend: only a file-system backend has a base path. */
  datatype VaultAdapter = FileSystemAdapter(basePath: string) | OtherAdapter

  /** A file or folder of the vault: its vault-relative path and, unless it is
      the root, the path of its parent folder. */
  datatype AbstractFile = AbstractFile(path: string, parent: Option<string>)

  /** The editor's cursor, 0-based. */
  datatype CursorPosition = CursorPosition(line: nat, ch: nat)

  /** `file?.path ?? ""`. */
  function FilePath(file: Option<AbstractFile>): (path: string)
  {
    match file
    case Some(f) => f.path
    case None => ""
  }

  /** `file?.parent?.path ?? ""`. */
  function FolderPath(file: Option<AbstractFile>): (path: string)
  {
    match file
    case Some(f) => f.parent.GetOr("")
    case None => ""
  }

  /** The 1-based line handed to the template: the cursor's line plus one, or 1
      without a Markdown editor. */
  function CursorLine(cursor: Option<CursorPosition>): (line: nat)
    ensures line >= 1
    ensures cursor.None? ==> line == 1
    ensures cursor.Some? ==> line - 1 == cursor.value.line
  {
    (match cursor case Some(c) => c.line case None => 0) + 1
  }

  /** The 1-based column handed to the template, like `CursorLine`. */
  function CursorCh(cursor: Option<CursorPosition>): (ch: nat)
    ensures ch >= 1
    ensures cursor.None? ==> ch == 1
    ensures cursor.Some? ==> ch - 1 == cursor.value.ch
  {
    (match cursor case Some(c) => c.ch case None => 0) + 1
  }

  /** The template the command is built from: the user's, unless it is blank,
      in which case the default one. A non-blank template is used untrimmed. */
  function EffectiveTemplate(executeTemplate: string): (t: string)
    ensures Blank(executeTemplate) ==> t == DefaultExecuteTemplate
    ensures !Blank(executeTemplate) ==> t == executeTemplate
    ensures !Blank(t)
  {
    if Blank(executeTemplate) then DefaultsAre(); DefaultExecuteTemplate else executeTemplate
  }

  /** The five `replaceAll` calls, chained in the source's order: text inserted
      by an earlier call is scanned by the later ones. */
  function Substitute(template: string, vaultPath: string, filePath: string, folderPath: string,
                      line: nat, ch: nat): (command: string)
  {
    var withVault := ReplaceAll(template, VaultPathPlaceholder, vaultPath);
    var withFile := ReplaceAll(withVault, FilePathPlaceholder, filePath);
    var withFolder := ReplaceAll(withFile, FolderPathPlaceholder, folderPath);
    var withLine := ReplaceAll(withFolder, LinePlaceholder, NatToString(line));
    ReplaceAll(withLine, ChPlaceholder, NatToString(ch))
  }

  /** The command `openCursor` runs, or nothing when the vault is not on the
      file system. `file` is the file the action targets (the active file by
      default) and `cursor` the cursor of the active Markdown editor. */
  function ShellCommand(settings: OpenCursorSettings, adapter: VaultAdapter, file: Option<AbstractFile>,
                        cursor: Option<CursorPosition>): (command: Option<string>)
    ensures command.None? <==> adapter.OtherAdapter?
  {
    match adapter
    case OtherAdapter => None
    case FileSystemAdapter(vaultPath) =>
      Some(Substitute(EffectiveTemplate(settings.executeTemplate), vaultPath, FilePath(file),
                      FolderPath(file), CursorLine(cursor), CursorCh(cursor)))
  }

  /** A template that holds none of the five placeholders is the command. */
  lemma SubstituteNoPlaceholders(template: string, vaultPath: string, filePath: string, folderPath: string,
                                 line: nat, ch: nat)
    requires !Occurs(VaultPathPlaceholder, template) && !Occurs(FilePathPlaceholder, template)
    requires !Occurs(FolderPathPlaceholder, template) && !Occurs(LinePlaceholder, template)
    requires !Occurs(ChPlaceholder, template)
    ensures Substitute(template, vaultPath, filePath, folderPath, line, ch) == template
  {
    NoMatchUnchanged(template, VaultPathPlaceholder, vaultPath);
    NoMatchUnchanged(template, FilePathPlaceholder, filePath);
    NoMatchUnchanged(template, FolderPathPlaceholder, folderPath);
    NoMatchUnchanged(template, LinePlaceholder, NatToString(line));
    NoMatchUnchanged(template, ChPlaceholder, NatToString(ch));
  }

  /** Decimal digits share no character with a placeholder. */
  lemma DigitsAreNotPlaceholderChars(n: nat, q: string)
    requires forall k :: 0 <= k < |q| ==> !IsDigit(q[k])
    ensures forall a :: 0 <= a < |NatToString(n)| ==> NatToString(n)[a] !in q
  {
  }

  /** The last two calls insert only digits, so the command holds no `{{line}}`
      and no `{{ch}}`, whatever the template and the paths. */
  lemma SubstituteLeavesNoLineOrCh(template: string, vaultPath: string, filePath: string, folderPath: string,
                                   line: nat, ch: nat)
    ensures var command := Substitute(template, vaultPath, filePath, folderPath, line, ch);
      !Occurs(LinePlaceholder, command) && !Occurs(ChPlaceholder, command)
  {
    var withVault := ReplaceAll(template, VaultPathPlaceholder, vaultPath);
    var withFile := ReplaceAll(withVault, FilePathPlaceholder, filePath);
    var withFolder := ReplaceAll(withFile, FolderPathPlaceholder, folderPath);
    var lineText, chText := NatToString(line), NatToString(ch);
    var withLine := ReplaceAll(withFolder, LinePlaceholder, lineText);
    assert '$' !in lineText && '$' !in chText;
    DigitsAreNotPlaceholderChars(line, LinePlaceholder);
    DigitsAreNotPlaceholderChars(ch, LinePlaceholder);
    DigitsAreNotPlaceholderChars(ch, ChPlaceholder);
    NoOccurrenceAfter(withFolder, LinePlaceholder, lineText, LinePlaceholder);
    NoOccurrenceAfter(withLine, ChPlaceholder, chText, LinePlaceholder);
    NoOccurrenceAfter(withLine, ChPlaceholder, chText, ChPlaceholder);
  }

  /** The first call on the default template puts the vault path in both
      places. */
  lemma DefaultTemplateWithVault(v: string)
    requires '$' !in v
    ensures ReplaceAll(DefaultExecuteTemplate, VaultPathPlaceholder, v)
         == "cursor \"" + v + "\" \"" + v + "/" + FilePathPlaceholder + "\""
  {
    var V, F := VaultPathPlaceholder, FilePathPlaceholder;
    var t1 := "cursor \"";
    var t2 := t1 + V;
    var t3 := t2 + "\" \"";
    var t4 := t3 + V;
    var t5 := t4 + "/";
    var t6 := t5 + F;
    assert t6 + "\"" == DefaultExecuteTemplate;
    assert V[0] == '{' && '"' !in V && '/' !in V;
    ReplaceAllOfPiece(t1, V, v);
    ReplaceAllOfPiece(V, V, v);
    ReplaceAllOfPiece("\" \"", V, v);
    ReplaceAllOfPiece("/", V, v);
    ReplaceAllOfPiece(F, V, v);
    ReplaceAllOfPiece("\"", V, v);
    ReplaceAllAppend(t1, V, V, v);
    ReplaceAllAppend(t2, "\" \"", V, v);
    ReplaceAllAppend(t3, V, V, v);
    ReplaceAllAppend(t4, "/", V, v);
    ReplaceAllAppend(t5, F, V, v);
    ReplaceAllAppend(t6, "\"", V, v);
  }

  /** The second call puts the file path after the vault path. */
  lemma DefaultTemplateWithFile(v: string, f: string)
    requires '{' !in v && '$' !in f
    ensures ReplaceAll("cursor \"" + v + "\" \"" + v + "/" + FilePathPlaceholder + "\"", FilePathPlaceholder, f)
         == "cursor \"" + v + "\" \"" + v + "/" + f + "\""
  {
    var F := FilePathPlaceholder;
    var t1 := "cursor \"";
    var t2 := t1 + v;
    var t3 := t2 + "\" \"";
    var t4 := t3 + v;
    var t5 := t4 + "/";
    var t6 := t5 + F;
    assert F[0] == '{' && '"' !in F && '/' !in F;
    ReplaceAllOfPiece(t1, F, f);
    ReplaceAllOfPiece(v, F, f);
    ReplaceAllOfPiece("\" \"", F, f);
    ReplaceAllOfPiece("/", F, f);
    ReplaceAllOfPiece(F, F, f);
    ReplaceAllOfPiece("\"", F, f);
    ReplaceAllAppend(t1, v, F, f);
    ReplaceAllAppend(t2, "\" \"", F, f);
    ReplaceAllAppend(t3, v, F, f);
    ReplaceAllAppend(t4, "/", F, f);
    ReplaceAllAppend(t5, F, F, f);
    ReplaceAllAppend(t6, "\"", F, f);
  }

  lemma NoBraceInCommand(v: string, f: string)
    requires '{' !in v && '{' !in f
    ensures '{' !in "cursor \"" + v + "\" \"" + v + "/" + f + "\""
  {
    assert '{' !in "cursor \"" && '{' !in "\" \"" && '{' !in "/" && '{' !in "\"";
  }

  /** The default settings open the vault and the file: for a vault path `v`
      and a file path `f` that hold no `{` and no `$`, the command is
      `cursor "v" "v/f"`, whatever the folder and the cursor. */
  lemma DefaultCommand(v: string, f: string, parent: Option<string>, cursor: Option<CursorPosition>)
    requires '{' !in v && '$' !in v && '{' !in f && '$' !in f
    ensures ShellCommand(DefaultSettings, FileSystemAdapter(v), Some(AbstractFile(f, parent)), cursor)
         == Some("cursor \"" + v + "\" \"" + v + "/" + f + "\"")
  {
    DefaultTemplateNotBlank();
    assert EffectiveTemplate(DefaultSettings.executeTemplate) == DefaultExecuteTemplate;
    DefaultTemplateWithVault(v);
    DefaultTemplateWithFile(v, f);
    var command := "cursor \"" + v + "\" \"" + v + "/" + f + "\"";
    NoBraceInCommand(v, f);
    assert FolderPathPlaceholder[0] == '{' && LinePlaceholder[0] == '{' && ChPlaceholder[0] == '{';
    var folder, line, ch := FolderPath(Some(AbstractFile(f, parent))), CursorLine(cursor), CursorCh(cursor);
    ReplaceAllOfPiece(command, FolderPathPlaceholder, folder);
    ReplaceAllOfPiece(command, LinePlaceholder, NatToString(line));
    ReplaceAllOfPiece(command, ChPlaceholder, NatToString(ch));
    assert Substitute(DefaultExecuteTemplate, v, f, folder, line, ch) == command;
  }

  /** The chained calls rescan inserted text: a vault path that is itself
      `{{filepath}}`, put in by the first call, is replaced by the second. */
  lemma InsertedTextIsRescanned(f: string, folder: string, line: nat, ch: nat)
    requires '{' !in f && '$' !in f
    ensures Substitute(VaultPathPlaceholder, FilePathPlaceholder, f, folder, line, ch) == f
  {
    ReplaceAllOfPiece(VaultPathPlaceholder, VaultPathPlaceholder, FilePathPlaceholder);
    ReplaceAllOfPiece(FilePathPlaceholder, FilePathPlaceholder, f);
    assert FolderPathPlaceholder[0] == '{' && LinePlaceholder[0] == '{' && ChPlaceholder[0] == '{';
    ReplaceAllOfPiece(f, FolderPathPlaceholder, folder);
    ReplaceAllOfPiece(f, LinePlaceholder, NatToString(line));
    ReplaceAllOfPiece(f, ChPlaceholder, NatToString(ch));
  }

  /** `{{filepath}}:{{line}}:{{ch}}`: the template of an editor that takes a
      `file:line:column` argument. */
  const FileLineChTemplate: string := FilePathPlaceholder + ":" + LinePlaceholder + ":" + ChPlaceholder

  /** A file path without `{` and `$` comes out as `f:line:ch`, with the
      1-based line and column in decimal, whatever the vault and folder. */
  lemma FileLineChCommand(v: string, f: string, folder: string, line: nat, ch: nat)
    requires '{' !in f && '$' !in f
    ensures Substitute(FileLineChTemplate, v, f, folder, line, ch)
         == f + ":" + NatToString(line) + ":" + NatToString(ch)
  {
    var F, L, C := FilePathPlaceholder, LinePlaceholder, ChPlaceholder;
    var lineText, chText := NatToString(line), NatToString(ch);
    assert FileLineChTemplate == F + [':'] + L + [':'] + C;
    FileLineChVaultAndFile(v, f);
    FileLineChFolder(f, folder);
    FileLineChLine(f, line);
    FileLineChCh(f, lineText, ch);
    assert f + ":" + lineText + ":" + chText == f + [':'] + lineText + [':'] + chText;
  }

  /** The first two calls: no `{{vaultpath}}` to replace, then the file path. */
  lemma FileLineChVaultAndFile(v: string, f: string)
    requires '$' !in f
    ensures var F, L, C := FilePathPlaceholder, LinePlaceholder, ChPlaceholder;
      ReplaceAll(ReplaceAll(F + [':'] + L + [':'] + C, VaultPathPlaceholder, v), F, f)
      == f + [':'] + L + [':'] + C
  {
    var V, F, L, C := VaultPathPlaceholder, FilePathPlaceholder, LinePlaceholder, ChPlaceholder;
    assert ':' !in V && ':' !in F;
    NoOccurrenceAroundSeparator(F, ':', L, V);
    NoOccurrenceAroundSeparator(F + [':'] + L, ':', C, V);
    NoMatchUnchanged(F + [':'] + L + [':'] + C, V, v);
    ReplaceAllAroundSeparator(F, ':', L, F, f);
    ReplaceAllAroundSeparator(F + [':'] + L, ':', C, F, f);
    ReplaceAllOfPiece(F, F, f);
    ReplaceAllOfPiece(L, F, f);
    ReplaceAllOfPiece(C, F, f);
  }

  /** The third call: no `{{folderpath}}` to replace. */
  lemma FileLineChFolder(f: string, folder: string)
    requires '{' !in f
    ensures var L, C := LinePlaceholder, ChPlaceholder;
      ReplaceAll(f + [':'] + L + [':'] + C, FolderPathPlaceholder, folder) == f + [':'] + L + [':'] + C
  {
    var P, L, C := FolderPathPlaceholder, LinePlaceholder, ChPlaceholder;
    assert ':' !in P && P[0] == '{';
    NoOccurrenceWithoutFirstChar(f, P);
    NoOccurrenceAroundSeparator(f, ':', L, P);
    NoOccurrenceAroundSeparator(f + [':'] + L, ':', C, P);
    NoMatchUnchanged(f + [':'] + L + [':'] + C, P, folder);
  }

  /** The fourth call: the line number replaces `{{line}}`. */
  lemma FileLineChLine(f: string, line: nat)
    requires '{' !in f
    ensures var L, C := LinePlaceholder, ChPlaceholder;
      ReplaceAll(f + [':'] + L + [':'] + C, L, NatToString(line)) == f + [':'] + NatToString(line) + [':'] + C
  {
    var L, C, lineText := LinePlaceholder, ChPlaceholder, NatToString(line);
    assert ':' !in L && L[0] == '{' && '$' !in lineText;
    ReplaceAllAroundSeparator(f, ':', L, L, lineText);
    ReplaceAllAroundSeparator(f + [':'] + L, ':', C, L, lineText);
    ReplaceAllOfPiece(f, L, lineText);
    ReplaceAllOfPiece(L, L, lineText);
    ReplaceAllOfPiece(C, L, lineText);
  }

  /** The fifth call: the column replaces `{{ch}}`. */
  lemma FileLineChCh(f: string, lineText: string, ch: nat)
    requires '{' !in f && '{' !in lineText
    ensures ReplaceAll(f + [':'] + lineText + [':'] + ChPlaceholder, ChPlaceholder, NatToString(ch))
         == f + [':'] + lineText + [':'] + NatToString(ch)
  {
    var C, chText := ChPlaceholder, NatToString(ch);
    assert ':' !in C && C[0] == '{' && '$' !in chText;
    ReplaceAllAroundSeparator(f, ':', lineText, C, chText);
    ReplaceAllAroundSeparator(f + [':'] + lineText, ':', C, C, chText);
    ReplaceAllOfPiece(f, C, chText);
    ReplaceAllOfPiece(lineText, C, chText);
    ReplaceAllOfPiece(C, C, chText);
  }

  /** `{{line}}` alone is substituted by the line number in decimal. */
  lemma SubstituteLineOnly(vaultPath: string, filePath: string, folderPath: string, line: nat, ch: nat)
    ensures Substitute(LinePlaceholder, vaultPath, filePath, folderPath, line, ch) == NatToString(line)
  {
    var L, digits := LinePlaceholder, NatToString(line);
    ReplaceAllOfPiece(L, VaultPathPlaceholder, vaultPath);
    ReplaceAllOfPiece(L, FilePathPlaceholder, filePath);
    ReplaceAllOfPiece(L, FolderPathPlaceholder, folderPath);
    ReplaceAllOfPiece(L, L, digits);
    assert ChPlaceholder[0] == '{' && '{' !in digits;
    ReplaceAllOfPiece(digits, ChPlaceholder, NatToString(ch));
  }

  /** `{{line}}` is not blank, so it is used as the template. */
  lemma LineTemplateIsUsed()
    ensures EffectiveTemplate(LinePlaceholder) == LinePlaceholder
  {
    var L := LinePlaceholder;
    assert !IsJsWhitespace(L[0]) && !IsJsWhitespace(L[|L| - 1]);
    TrimOfTrimmed(L);
  }

  /** A template that is just `{{line}}` gives the 1-based line number, in
      decimal. */
  lemma LineTemplate(settings: OpenCursorSettings, vaultPath: string, file: Option<AbstractFile>,
                     cursor: Option<CursorPosition>)
    requires settings.executeTemplate == LinePlaceholder
    ensures var command := ShellCommand(settings, FileSystemAdapter(vaultPath), file, cursor);
      && command == Some(NatToString(CursorLine(cursor)))
      && DecimalValue(command.value) == CursorLine(cursor)
  {
    LineTemplateIsUsed();
    SubstituteLineOnly(vaultPath, FilePath(file), FolderPath(file), CursorLine(cursor), CursorCh(cursor));
    NatToStringRoundTrip(CursorLine(cursor));
  }

  // ---------------------------------------------------------------------------
  // openCursorUrl
  // ---------------------------------------------------------------------------

  const UrlScheme: string := "cursor://file/"

  /** The URLs `openCursorUrl` opens, in order: none when the vault is not on
      the file system; with `openFile` off, the vault; with it on, the
      workspace (its `{{vaultpath}}` replaced by the vault path) and then the
      active file. Paths are appended as they are, without encoding. */
  function Urls(settings: OpenCursorSettings, adapter: VaultAdapter, activeFile: Option<AbstractFile>): (urls: seq<string>)
    ensures adapter.OtherAdapter? ==> urls == []
    ensures adapter.FileSystemAdapter? ==> |urls| == if settings.openFile then 2 else 1
    ensures forall k :: 0 <= k < |urls| ==> UrlScheme <= urls[k]
  {
    match adapter
    case OtherAdapter => []
    case FileSystemAdapter(path) =>
      if settings.openFile then
        [UrlScheme + ReplaceAll(settings.workspacePath, VaultPathPlaceholder, path),
         UrlScheme + path + "/" + FilePath(activeFile)]
      else [UrlScheme + path]
  }

  /** With `openFile` off, only the vault is opened. */
  lemma UrlsWithoutFile(settings: OpenCursorSettings, path: string, activeFile: Option<AbstractFile>)
    requires !settings.openFile
    ensures Urls(settings, FileSystemAdapter(path), activeFile) == [UrlScheme + path]
  {
  }

  /** With `openFile` on, the workspace is opened first, then the file: the
      workspace URL is the workspace path cut at every `{{vaultpath}}` and
      rejoined with the vault path (for a vault path without `$`), and the file
      URL ends in `/` when no file is active. */
  lemma UrlsWithFile(settings: OpenCursorSettings, path: string, activeFile: Option<AbstractFile>)
    requires settings.openFile
    ensures var urls := Urls(settings, FileSystemAdapter(path), activeFile);
      && |urls| == 2
      && urls[1] == UrlScheme + path + "/" + FilePath(activeFile)
      && (activeFile.None? ==> urls[1] == UrlScheme + path + "/")
      && ('$' !in path ==>
            var parts := Split(settings.workspacePath, VaultPathPlaceholder);
            && Join(parts, VaultPathPlaceholder) == settings.workspacePath
            && (forall n :: 0 <= n < |parts| ==> !Occurs(VaultPathPlaceholder, parts[n]))
            && urls[0] == UrlScheme + Join(parts, path))
  {
    if '$' !in path {
      ReplaceAllReplacesEveryOccurrence(settings.workspacePath, VaultPathPlaceholder, path);
    }
  }

  /** The defaults open the vault, then the file inside it. */
  lemma DefaultUrls(path: string, activeFile: Option<AbstractFile>)
    requires '$' !in path
    ensures Urls(DefaultSettings, FileSystemAdapter(path), activeFile)
         == [UrlScheme + path, UrlScheme + path + "/" + FilePath(activeFile)]
  {
    ReplaceAllOfPiece(VaultPathPlaceholder, VaultPathPlaceholder, path);
  }

  /** A workspace path left empty opens the bare scheme: the empty value is
      not replaced by the default when the URL is built. */
  lemma EmptyWorkspaceOpensBareScheme(settings: OpenCursorSettings, path: string, activeFile: Option<AbstractFile>)
    requires settings.openFile && settings.workspacePath == []
    ensures Urls(settings, FileSystemAdapter(path), activeFile)[0] == UrlScheme
  {
    ReplaceAllOfPiece([], VaultPathPlaceholder, path);
  }

  // ---------------------------------------------------------------------------
  // The plugin object
  // ---------------------------------------------------------------------------

  /** The plugin: the settings it works with, and the record its data store
      holds (what `loadData` returns and `saveData` overwrites). */
  class OpenCursorPlugin {
    var settings: OpenCursorSettings
    var data: Option<StoredSettings>

    /** `onload`'s `loadSettings`, on a store holding `data`. */
    constructor(data: Option<StoredSettings>)
      ensures this.data == data
      ensures settings == Merge(DefaultSettings, data)
    {
      this.data := data;
      settings := Merge(DefaultSettings, data);
    }

    /** `loadSettings`: the defaults, overridden by every key of the store. */
    method LoadSettings()
      modifies this
      ensures settings == Merge(DefaultSettings, data)
      ensures data == old(data)
    {
      settings := Merge(DefaultSettings, data);
    }

    /** `saveSettings`: the store now holds every key of the settings. */
    method SaveSettings()
      modifies this
      ensures data == Some(Stored(settings))
      ensures settings == old(settings)
    {
      data := Some(Stored(settings));
    }

    /** `resetSettings`, with the defaults copied in (see the aliasing model for
        what the assignment of the shared object does). */
    method ResetSettings()
      modifies this
      ensures settings == DefaultSettings
      ensures data == Some(Stored(DefaultSettings))
    {
      settings := DefaultSettings;
      SaveSettings();
    }

    /** `openCursor`: the command it runs, or nothing off the file system. */
    method OpenCursor(adapter: VaultAdapter, file: Option<AbstractFile>, cursor: Option<CursorPosition>)
      returns (command: Option<string>)
      ensures command == ShellCommand(settings, adapter, file, cursor)
      ensures command.Some? ==> !Occurs(LinePlaceholder, command.value) && !Occurs(ChPlaceholder, command.value)
    {
      if adapter.OtherAdapter? {
        return None;
      }
      var vaultPath := adapter.basePath;
      var filePath := FilePath(file);
      var folderPath := FolderPath(file);
      var line := CursorLine(cursor);
      var ch := CursorCh(cursor);
      var text := if Blank(settings.executeTemplate) then DefaultExecuteTemplate else settings.executeTemplate;
      text := ReplaceAll(text, VaultPathPlaceholder, vaultPath);
      text := ReplaceAll(text, FilePathPlaceholder, filePath);
      text := ReplaceAll(text, FolderPathPlaceholder, folderPath);
      text := ReplaceAll(text, LinePlaceholder, NatToString(line));
      text := ReplaceAll(text, ChPlaceholder, NatToString(ch));
      SubstituteLeavesNoLineOrCh(EffectiveTemplate(settings.executeTemplate), vaultPath, filePath, folderPath, line, ch);
      command := Some(text);
    }

    /** `openCursorUrl`: the URLs it opens, in the order it opens them. */
    method OpenCursorUrl(adapter: VaultAdapter, activeFile: Option<AbstractFile>) returns (urls: seq<string>)
      ensures urls == Urls(settings, adapter, activeFile)
    {
      urls := [];
      if adapter.OtherAdapter? {
        return;
      }
      var path := adapter.basePath;
      var filePath := FilePath(activeFile);
      var url := UrlScheme + path;
      if settings.openFile {
        url := url + "/" + filePath;
        var workspacePath := ReplaceAll(settings.workspacePath, VaultPathPlaceholder, path);
        urls := urls + [UrlScheme + workspacePath];
        urls := urls + [url];
      } else {
        urls := urls + [url];
      }
    }
  }

  /** Saving, then loading again, leaves the settings as they were. */
  method SaveThenReload(plugin: OpenCursorPlugin)
    modifies plugin
    ensures plugin.settings == old(plugin.settings)
    ensures plugin.data == Some(Stored(old(plugin.settings)))
  {
    plugin.SaveSettings();
    plugin.LoadSettings();
    SaveThenLoad(DefaultSettings, old(plugin.settings));
  }
}
