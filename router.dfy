/** The main window: it routes the controller's stream signals to the editor
    pane or the chat, keeps the buffer of a file being generated, decides
    when the controller's context is cleared, saves generated files without
    overwriting existing ones, sets up the context of an edit requested from
    the file pane, and formats status-bar messages. */
module Router {
  import opened Text
  import opened Files
  import opened Streaming
  import opened Editor
  import opened Controller

  // ---------------------------------------------------------------- status bar

  /** A status-bar message and how long it stays, in milliseconds (0: until
      replaced). */
  datatype StatusText = StatusText(text: string, timeout: int)

  /** Senders whose messages carry no `[sender] ` prefix. */
  predicate Unprefixed(sender: string) {
    sender == "Error" || sender == "Warning" || sender == "GemNet"
  }

  function Prefix(sender: string): string {
    if Unprefixed(sender) then "" else "[" + sender + "] "
  }

  /** The first quoted part of a message (`message.split("'")[1]`), when the
      message holds at least two quotes. */
  function Quoted(message: string): Option<string> {
    var i := Find(message, "'", 0);
    if i < 0 then None
    else
      var j := Find(message, "'", i + 1);
      if j < 0 then None else Some(message[i + 1..j])
  }

  /** `update_status_bar`. */
  function StatusBar(sender: string, message: string): StatusText {
    if sender == "GemNet" && Contains(message, "loaded successfully") then
      match Quoted(message)
      case Some(name) => StatusText("Model '" + name + "' ready.", 4000)
      case None => StatusText(message, 4000)
    else
      var timeout :=
        if Contains(message, "API Key Error") || Contains(message, "Error:") then 0
        else if sender == "Gemini" && Contains(message, "Sending request") then 1500
        else if sender == "Gemini" && Contains(message, "Received full response") then 3000
        else if Contains(message, "Theme set to:") then 3000
        else 5000;
      StatusText(Prefix(sender) + message, timeout)
  }

  /** Apart from a model-loaded notice, the status bar shows the message
      behind a `[sender] ` prefix unless the sender is Error, Warning or
      GemNet, and the message stays until replaced exactly when it reports
      an error; a model-loaded notice stays four seconds. */
  lemma StatusBarSpec(sender: string, message: string)
    ensures var r := StatusBar(sender, message);
      (sender == "GemNet" && Contains(message, "loaded successfully") ==> r.timeout == 4000) &&
      (!(sender == "GemNet" && Contains(message, "loaded successfully")) ==>
        (Unprefixed(sender) ==> r.text == message) &&
        (!Unprefixed(sender) ==> r.text == "[" + sender + "] " + message) &&
        (r.timeout == 0 <==> Contains(message, "API Key Error") || Contains(message, "Error:")) &&
        r.timeout >= 0)
  {
  }

  // ------------------------------------------------------- saving a generated file

  /** Characters a saved file's name keeps. */
  predicate SafeNameChar(c: char) {
    IsAlnum(c) || c == '.' || c == '_' || c == '-'
  }

  /** The name a generated file is saved under: the kept characters,
      stripped; an empty name or one starting with `.` is replaced. */
  function SafeFileName(name: string): string {
    var kept := Strip(Filter(name, SafeNameChar));
    if kept == [] || kept[0] == '.' then DefaultCreateName else kept
  }

  predicate SafeName(name: string) {
    name != [] && name[0] != '.' && forall i :: 0 <= i < |name| ==> SafeNameChar(name[i])
  }

  /** A saved name is non-empty, does not start with `.`, holds only kept
      characters (so no `/` and no way out of the save directory), and
      sanitising it again changes nothing. */
  lemma SafeFileNameSpec(name: string)
    ensures SafeName(SafeFileName(name))
    ensures '/' !in SafeFileName(name)
    ensures SafeFileName(SafeFileName(name)) == SafeFileName(name)
  {
    var r := SafeFileName(name);
    SafeFileNameSafe(name);
    assert !SafeNameChar('/');
    SafeNameFixed(r);
  }

  lemma SafeFileNameSafe(name: string)
    ensures SafeName(SafeFileName(name))
  {
    var f := Filter(name, SafeNameChar);
    NoSpaceStrip(f);
    if f == [] || f[0] == '.' {
      DefaultNameSafe();
    }
  }

  /** Kept characters hold no whitespace, so stripping them changes nothing. */
  lemma NoSpaceStrip(s: string)
    requires forall i :: 0 <= i < |s| ==> SafeNameChar(s[i])
    ensures Strip(s) == s
  {
    assert forall i :: 0 <= i < |s| ==> !IsSpace(s[i]);
    StripNoSpace(s);
  }

  lemma DefaultNameSafe()
    ensures SafeName(DefaultCreateName)
  {
    assert forall i :: 0 <= i < |DefaultCreateName| ==> SafeNameChar(DefaultCreateName[i]);
  }

  /** A safe name is its own saved name. */
  lemma SafeNameFixed(name: string)
    requires SafeName(name)
    ensures SafeFileName(name) == name
  {
    FilterKeepsAll(name, SafeNameChar);
    NoSpaceStrip(name);
  }

  /** Index of the last `.`, or -1. */
  function LastDot(s: string): (i: int)
    ensures -1 <= i < |s|
    ensures i >= 0 ==> s[i] == '.'
    ensures forall j :: i < j < |s| ==> s[j] != '.'
  {
    if s == [] then -1
    else if s[|s| - 1] == '.' then |s| - 1
    else LastDot(s[..|s| - 1])
  }

  predicate AllDots(s: string) {
    forall j :: 0 <= j < |s| ==> s[j] == '.'
  }

  /** `os.path.splitext` of a name without `/`: the extension runs from the
      last `.`, unless only dots come before it. */
  function SplitExt(s: string): (string, string) {
    var i := LastDot(s);
    if i > 0 && !AllDots(s[..i]) then (s[..i], s[i..]) else (s, "")
  }

  /** The two parts make up the name; the extension is empty or one `.`
      followed by no other; the stem of a name not starting with `.` is not
      empty and starts like the name. */
  lemma SplitExtSpec(s: string)
    ensures var (base, ext) := SplitExt(s);
      base + ext == s &&
      (ext == [] || (ext[0] == '.' && '.' !in ext[1..])) &&
      (s != [] && s[0] != '.' ==> base != [] && base[0] == s[0])
  {
    var i := LastDot(s);
    if i > 0 && !AllDots(s[..i]) {
      assert s[..i] + s[i..] == s;
      var ext := s[i..];
      forall j | 0 <= j < |ext[1..]| ensures ext[1..][j] != '.' {
        assert ext[1..][j] == s[i + 1 + j];
      }
    }
  }

  /** The path tried for collision number `n`: `<base>_<n><ext>` in `dir`. */
  function Numbered(dir: string, base: string, ext: string, n: nat): string {
    Join(dir, base + "_" + Decimal(n) + ext)
  }

  /** The part `Join` puts in front of a relative name. */
  function JoinPrefix(a: string): string {
    if a == [] || a[|a| - 1] == '/' then a else a + "/"
  }

  lemma JoinRelative(a: string, b: string)
    requires b == [] || b[0] != '/'
    ensures Join(a, b) == JoinPrefix(a) + b
  {
  }

  /** Different collision numbers give different paths. */
  lemma NumberedInjective(dir: string, base: string, ext: string, n: nat, k: nat)
    requires base != [] && base[0] != '/'
    requires Numbered(dir, base, ext, n) == Numbered(dir, base, ext, k)
    ensures n == k
  {
    var u := base + "_";
    var x := u + Decimal(n) + ext;
    var y := u + Decimal(k) + ext;
    assert x[0] == base[0] && y[0] == base[0];
    JoinRelative(dir, x);
    JoinRelative(dir, y);
    var p := JoinPrefix(dir);
    assert x == (p + x)[|p|..] == (p + y)[|p|..] == y;
    assert Decimal(n) == x[|u|..|u| + |Decimal(n)|];
    assert Decimal(k) == y[|u|..|u| + |Decimal(k)|];
    DecimalInjective(n, k);
  }

  lemma SubsetSize<T>(a: set<T>, b: set<T>)
    requires a <= b
    ensures |a| <= |b|
  {
    if a != {} {
      var x :| x in a;
      SubsetSize(a - {x}, b - {x});
    }
  }

  /** The file pane's directory is a directory other than the root that the
      application may not write (`os.access(dir, os.W_OK)` fails). */
  predicate WriteDenied(fs: FileSystem, viewDir: string, root: string) {
    IsDir(fs, viewDir) && viewDir != root && !fs[viewDir].writable
  }

  /** The directory a generated file goes to: the file pane's directory when
      it is a directory other than the root and writable, otherwise the
      application's working directory. */
  function SaveDir(fs: FileSystem, viewDir: string, cwd: string, root: string): string {
    if IsDir(fs, viewDir) && viewDir != root && fs[viewDir].writable then viewDir else cwd
  }

  /** What the window puts in the chat: the stream signals it forwards to the
      chat pane, and the notices it adds (`status` for the italic ones). */
  datatype ChatEvent =
    | ChatStarted(sender: string, kind: string)
    | ChatChunk(text: string)
    | ChatFinished(sender: string, kind: string)
    | ChatError(message: string, kind: string)
    | Notice(sender: string, text: string, status: bool)

  /** The warning given when the file pane's directory is not writable. */
  function PermissionNotice(fs: FileSystem, viewDir: string, root: string, filename: string): seq<ChatEvent> {
    if WriteDenied(fs, viewDir, root) then
      [Notice("Warning", "No write permission in '" + Basename(viewDir) + "'. Saving '" + filename + "' to application directory.", true)]
    else []
  }

  function CollisionNotice(safe: string, saved: string): ChatEvent {
    Notice("Warning", "File '" + safe + "' already exists. Saved as '" + saved + "'.", true)
  }

  /** How the chat names a created file. */
  function DisplayName(dir: string, viewDir: string, cwd: string, name: string): string {
    if dir == viewDir then Join(Basename(viewDir), name)
    else if dir == cwd then name + " (in app directory)"
    else name + " (in " + dir + ")"
  }

  function CreatedNotice(dir: string, viewDir: string, cwd: string, name: string): ChatEvent {
    Notice("GemNet", "Created file: " + DisplayName(dir, viewDir, cwd, name), true)
  }

  /** The notices of `_save_generated_file`, in order: no write permission
      in the file pane's directory, a name already taken, the file created
      (when writing succeeds). All are italic notices. */
  function SaveNotices(fs: FileSystem, filename: string, viewDir: string, cwd: string, root: string,
                       writeOk: bool, path: string): (r: seq<ChatEvent>)
    ensures forall i :: 0 <= i < |r| ==> r[i].Notice?
  {
    var dir := SaveDir(fs, viewDir, cwd, root);
    var safe := SafeFileName(filename);
    PermissionNotice(fs, viewDir, root, filename) +
    (if Join(dir, safe) in fs then [CollisionNotice(safe, Basename(path))] else []) +
    (if writeOk then [CreatedNotice(dir, viewDir, cwd, Basename(path))] else [])
  }

  /** Each notice and its condition: a permission warning first exactly when
      the file pane's directory is denied (the file then goes to the working
      directory), a collision warning naming the sanitised name and the name
      used exactly when the sanitised name is taken in the save directory, and
      last the created notice exactly when the write succeeds. */
  lemma SaveNoticesSpec(fs: FileSystem, filename: string, viewDir: string, cwd: string, root: string,
                        writeOk: bool, path: string)
    ensures var r := SaveNotices(fs, filename, viewDir, cwd, root, writeOk, path);
      var denied := WriteDenied(fs, viewDir, root);
      var dir := SaveDir(fs, viewDir, cwd, root);
      var safe := SafeFileName(filename);
      var taken := Join(dir, safe) in fs;
      var d := if denied then 1 else 0;
      var c := if taken then 1 else 0;
      |r| == d + c + (if writeOk then 1 else 0) &&
      (denied ==>
        dir == cwd && r[0] == Notice("Warning", "No write permission in '" + Basename(viewDir) + "'. Saving '" + filename + "' to application directory.", true)) &&
      (taken ==> r[d] == Notice("Warning", "File '" + safe + "' already exists. Saved as '" + Basename(path) + "'.", true)) &&
      (writeOk ==> r[|r| - 1] == Notice("GemNet", "Created file: " + DisplayName(dir, viewDir, cwd, Basename(path)), true)) &&
      (forall i :: 0 <= i < d + c ==> r[i].sender == "Warning")
  {
  }

  /** `path` is where `_save_generated_file` puts a file named `filename`:
      a path that did not exist, the sanitised name in the save directory
      when that is free, otherwise `<base>_<n><ext>` for the smallest free
      `n` from 1. */
  ghost predicate SavedPath(fs: FileSystem, filename: string, viewDir: string, cwd: string, root: string, path: string) {
    var dir := SaveDir(fs, viewDir, cwd, root);
    var safe := SafeFileName(filename);
    var parts := SplitExt(safe);
    path !in fs &&
    (Join(dir, safe) !in fs ==> path == Join(dir, safe)) &&
    (Join(dir, safe) in fs ==>
      exists n: nat :: n >= 1 && path == Numbered(dir, parts.0, parts.1, n) &&
        forall k: nat :: 1 <= k < n ==> Numbered(dir, parts.0, parts.1, k) in fs)
  }

  /** The save path is determined by the file system and the name. */
  lemma SavedPathUnique(fs: FileSystem, filename: string, viewDir: string, cwd: string, root: string, p: string, q: string)
    requires SavedPath(fs, filename, viewDir, cwd, root, p) && SavedPath(fs, filename, viewDir, cwd, root, q)
    ensures p == q
  {
    var dir := SaveDir(fs, viewDir, cwd, root);
    var parts := SplitExt(SafeFileName(filename));
    if Join(dir, SafeFileName(filename)) in fs {
      var n: nat :| n >= 1 && p == Numbered(dir, parts.0, parts.1, n) &&
        forall k: nat :: 1 <= k < n ==> Numbered(dir, parts.0, parts.1, k) in fs;
      var m: nat :| m >= 1 && q == Numbered(dir, parts.0, parts.1, m) &&
        forall k: nat :: 1 <= k < m ==> Numbered(dir, parts.0, parts.1, k) in fs;
      if m < n {
        assert Numbered(dir, parts.0, parts.1, m) in fs;
      }
    }
  }

  /** The text after the first `:` (`split(":", 1)[1]`). */
  function AfterFirstColon(s: string): string {
    if s == [] then []
    else if s[0] == ':' then s[1..]
    else AfterFirstColon(s[1..])
  }

  /** The name a success tag carries is read back whole, even when it holds
      a colon itself. */
  lemma SuccessTagName(f: string)
    ensures StartsWith(CreateSuccessTag + f, CreateSuccessTag)
    ensures AfterFirstColon(CreateSuccessTag + f) == f
  {
    StartsWithConcat(CreateSuccessTag, f);
    var t := CreateSuccessTag + f;
    var i := 0;
    while i < 14
      invariant 0 <= i <= 14
      invariant AfterFirstColon(t) == AfterFirstColon(t[i..])
    {
      assert t[i] != ':';
      assert t[i..][1..] == t[i + 1..];
      i := i + 1;
    }
    assert t[14] == ':' && t[15..] == f;
  }

  /** The context `handle_edit_request` leaves: an edit of all the given
      paths when the first one got a new tab, otherwise none. */
  function EditRequestContext(tabs: seq<Tab>, current: int, paths: seq<string>, fs: FileSystem): Context {
    if paths == [] then NoContext
    else
      var r := OpenAll(StartOpening(tabs, current), [paths[0]], fs);
      if r.newPaths != [] && r.newPaths[0] == paths[0] then Context(Some(Edit), paths, "", "") else NoContext
  }

  /** An edit from the file pane is set up exactly when the first path is a
      readable file that no tab shows yet: a file already open in a tab is
      focused, reported as not opened and the context is cleared. */
  lemma EditRequestContextSpec(tabs: seq<Tab>, current: int, paths: seq<string>, fs: FileSystem)
    ensures var c := EditRequestContext(tabs, current, paths, fs);
      (c == Context(Some(Edit), paths, "", "") <==>
        paths != [] && IsFile(fs, paths[0]) && FindTab(tabs, paths[0]) == -1 && Decode(fs[paths[0]]).Some?) &&
      (c != Context(Some(Edit), paths, "", "") ==> c == NoContext)
  {
    if paths != [] {
      var s := StartOpening(tabs, current);
      assert OpenAll(s, [paths[0]], fs) == OpenAll(OpenStep(s, paths[0], fs), [], fs);
    }
  }

  /** The kind an error is routed by: a success tag counts as a file error. */
  function ErrorRoute(kind: string): string {
    if StartsWith(kind, CreateSuccessTag) then FileCreateKind else kind
  }

  /** The chat's answer to an edit request from the file pane. */
  function EditRequestNotice(path: string, accepted: bool): ChatEvent {
    if accepted then Notice("GemNet", "Editing " + Basename(path) + ".\nPlease provide instructions in the chat.", true)
    else Notice("Error", "Failed to open '" + Basename(path) + "' for editing.", false)
  }

  /** The chat's error when `/edit` names a file the editor does not open. */
  function OpenFailedNotice(path: string, found: bool): ChatEvent {
    if found then Notice("Error", "Failed to open '" + Basename(path) + "' in editor.", false)
    else Notice("Error", "Cannot open file for edit: '" + path + "' not found.", false)
  }

  /** Where a chunk goes: the editor, the chat and the file buffer, or the chat. */
  datatype ChunkRoute = ToEditor | ToBuffer | ToChat

  function RouteChunk(active: Option<string>): ChunkRoute {
    if active == Some(EditorKind) then ToEditor
    else if active == Some(FileCreateKind) then ToBuffer
    else ToChat
  }

  /** The context after a finish signal tagged `kind`, when the window
      starts with context `ctx` and, for a success tag, the save succeeds or
      not. */
  function FinishContext(kind: string, ctx: Context, saved: bool): Context {
    if StartsWith(kind, CreateSuccessTag) then
      if saved && ctx.action != Some(CreatingFile) then ctx else NoContext
    else if kind == EditorKind then
      if ctx.action == Some(Edit) || ctx.action == Some(EditEditor) then NoContext else ctx
    else NoContext
  }

  /** Only two finishes keep the context: an editor finish when no edit is
      pending, and a saved file whose creation is no longer pending. */
  lemma FinishContextSpec(kind: string, ctx: Context, saved: bool)
    ensures var c := FinishContext(kind, ctx, saved);
      (c == NoContext || c == ctx) &&
      (c == ctx && ctx != NoContext ==>
        (kind == EditorKind && ctx.action != Some(Edit) && ctx.action != Some(EditEditor)) ||
        (StartsWith(kind, CreateSuccessTag) && saved && ctx.action != Some(CreatingFile))) &&
      (kind == ChatKind || kind == FileCreateKind ==> c == NoContext)
  {
    assert !StartsWith(EditorKind, CreateSuccessTag);
    assert !StartsWith(ChatKind, CreateSuccessTag);
    assert !StartsWith(FileCreateKind, CreateSuccessTag);
  }

  /** The collision loop of `_save_generated_file`: the first of
      `<base>_1<ext>`, `<base>_2<ext>`, ... in `dir` that does not exist. */
  method FirstFree(fs: FileSystem, dir: string, safe: string, base: string, ext: string) returns (path: string)
    requires base + ext == safe && base != [] && base[0] != '/'
    ensures path !in fs
    ensures exists n: nat :: (n >= 1 && path == Numbered(dir, base, ext, n) &&
      forall k: nat :: 1 <= k < n ==> Numbered(dir, base, ext, k) in fs)
  {
    ghost var tried: set<string> := {};
    var count: nat := 1;
    path := Numbered(dir, base, ext, 1);
    while path in fs
      invariant count >= 1
      invariant tried <= fs.Keys && |tried| == count - 1
      invariant path == Numbered(dir, base, ext, count)
      invariant forall k: nat :: 1 <= k < count ==> Numbered(dir, base, ext, k) in tried
      invariant forall q :: q in tried ==> exists k: nat :: 1 <= k < count && q == Numbered(dir, base, ext, k)
      decreases |fs.Keys| - |tried|
    {
      if path in tried {
        var k: nat :| 1 <= k < count && path == Numbered(dir, base, ext, k);
        NumberedInjective(dir, base, ext, count, k);
      }
      tried := tried + {path};
      SubsetSize(tried, fs.Keys);
      count := count + 1;
      path := Numbered(dir, base, ext, count);
    }
  }

  /** The path `_save_generated_file` writes to: the sanitised name in
      `dir` when that is free, otherwise the first free numbered variant. */
  method ChooseSavePath(fs: FileSystem, dir: string, safe: string) returns (path: string)
    requires SafeName(safe)
    ensures path !in fs
    ensures Join(dir, safe) !in fs ==> path == Join(dir, safe) && Basename(path) == safe
    ensures Join(dir, safe) in fs ==>
      var parts := SplitExt(safe);
      exists n: nat :: (n >= 1 && path == Numbered(dir, parts.0, parts.1, n) &&
        forall k: nat :: 1 <= k < n ==> Numbered(dir, parts.0, parts.1, k) in fs)
  {
    path := Join(dir, safe);
    if path in fs {
      var parts := SplitExt(safe);
      SplitExtSpec(safe);
      path := FirstFree(fs, dir, safe, parts.0, parts.1);
    } else {
      JoinBasename(dir, safe);
      assert !SafeNameChar('/');
      BasenameNoSlash(safe);
    }
  }

  class MainWindow {
    const controller: GeminiController
    const editor: EditorPane
    /** `_streaming_file_content`: the text of the file being generated. */
    var buffer: string
    /** The file system the window reads and writes. */
    var disk: FileSystem
    /** Everything the window puts in the chat, in order. */
    var chatLog: seq<ChatEvent>

    ghost predicate Valid()
      reads this, controller, editor
    {
      controller.editor == editor && editor.Valid()
    }

    constructor(controller: GeminiController, disk: FileSystem)
      requires controller.editor.Valid()
      ensures Valid() && this.controller == controller && editor == controller.editor
      ensures buffer == [] && this.disk == disk && chatLog == []
    {
      this.controller := controller;
      editor := controller.editor;
      buffer := [];
      this.disk := disk;
      chatLog := [];
    }

    /** `handle_stream_started`: editor streams go to the editor; a file
        stream empties the buffer; chat and file streams are shown in the
        chat; other kinds are ignored. */
    method HandleStreamStarted(sender: string, kind: string)
      requires Valid()
      modifies this`buffer, this`chatLog, editor`tabs, editor`streaming
      ensures Valid()
      ensures kind == EditorKind ==>
        buffer == old(buffer) && chatLog == old(chatLog) &&
        (if editor.HasTab() then
          editor.streaming && editor.tabs == old(editor.tabs)[editor.current := old(editor.tabs[editor.current]).(text := [])]
        else unchanged(editor))
      ensures kind != EditorKind ==> unchanged(editor)
      ensures kind == FileCreateKind ==> buffer == [] && chatLog == old(chatLog) + [ChatStarted(sender, kind)]
      ensures kind == ChatKind ==> buffer == old(buffer) && chatLog == old(chatLog) + [ChatStarted(sender, kind)]
      ensures kind != EditorKind && kind != ChatKind && kind != FileCreateKind ==>
        buffer == old(buffer) && chatLog == old(chatLog)
    {
      if kind == EditorKind {
        editor.HandleStreamStarted(sender, kind);
      } else if kind == ChatKind || kind == FileCreateKind {
        if kind == FileCreateKind {
          buffer := [];
        }
        chatLog := chatLog + [ChatStarted(sender, kind)];
      }
    }

    /** `handle_stream_chunk`; `active` is the kind of the stream in
        progress, if the controller reports one. */
    method HandleStreamChunk(chunk: string, active: Option<string>)
      requires Valid()
      modifies this`buffer, this`chatLog, editor`tabs
      ensures Valid()
      ensures RouteChunk(active) == ToEditor ==>
        buffer == old(buffer) && chatLog == old(chatLog) &&
        (if editor.streaming && editor.HasTab() then
          editor.tabs == old(editor.tabs)[editor.current := old(editor.tabs[editor.current]).(text := old(editor.tabs[editor.current].text) + chunk)]
        else unchanged(editor))
      ensures RouteChunk(active) == ToBuffer ==>
        buffer == old(buffer) + chunk && chatLog == old(chatLog) + [ChatChunk(chunk)] && unchanged(editor)
      ensures RouteChunk(active) == ToChat ==>
        buffer == old(buffer) && chatLog == old(chatLog) + [ChatChunk(chunk)] && unchanged(editor)
    {
      if active == Some(EditorKind) {
        editor.HandleStreamChunk(chunk);
      } else if active == Some(FileCreateKind) {
        buffer := buffer + chunk;
        chatLog := chatLog + [ChatChunk(chunk)];
      } else {
        chatLog := chatLog + [ChatChunk(chunk)];
      }
    }

    /** `_save_generated_file`: `writeOk` says whether writing the file
        succeeds. The file goes to a path that did not exist: the sanitised
        name if it is free, otherwise `<base>_<n><ext>` for the smallest
        free `n` from 1. */
    method SaveGeneratedFile(filename: string, content: string, viewDir: string, cwd: string, root: string,
                             writeOk: bool)
      returns (saved: bool, path: string)
      modifies this`disk, this`chatLog
      ensures SavedPath(old(disk), filename, viewDir, cwd, root, path)
      ensures saved == writeOk
      ensures disk == if writeOk then old(disk)[path := WrittenFile(content)] else old(disk)
      ensures chatLog == old(chatLog) + SaveNotices(old(disk), filename, viewDir, cwd, root, writeOk, path)
    {
      var dir := SaveDir(disk, viewDir, cwd, root);
      var safe := SafeFileName(filename);
      SafeFileNameSafe(filename);
      path := ChooseSavePath(disk, dir, safe);
      chatLog := chatLog + SaveNotices(disk, filename, viewDir, cwd, root, writeOk, path);
      saved := writeOk;
      if writeOk {
        disk := disk[path := WrittenFile(content)];
      }
    }

    /** The success-tag branch of `handle_stream_finished`: the buffer is
        saved under the name after the tag's colon and emptied; after a save
        the file stream is finished in the chat and a pending creation is
        cleared, after a failed save the context is cleared and no finish is
        shown. Returns the path the file went to (or would have). */
    method FinishCreation(sender: string, kind: string, viewDir: string, cwd: string, root: string, writeOk: bool)
      returns (path: string)
      requires Valid() && StartsWith(kind, CreateSuccessTag)
      modifies this`buffer, this`disk, this`chatLog, controller`context
      ensures Valid()
      ensures controller.context == FinishContext(kind, old(controller.context), writeOk)
      ensures buffer == []
      ensures var name := AfterFirstColon(kind);
        SavedPath(old(disk), name, viewDir, cwd, root, path) &&
        disk == (if writeOk then old(disk)[path := WrittenFile(old(buffer))] else old(disk)) &&
        chatLog == old(chatLog) + SaveNotices(old(disk), name, viewDir, cwd, root, writeOk, path) +
          (if writeOk then [ChatFinished(sender, FileCreateKind)] else [])
    {
      var filename := AfterFirstColon(kind);
      var saved;
      saved, path := SaveGeneratedFile(filename, buffer, viewDir, cwd, root, writeOk);
      buffer := [];
      if saved {
        chatLog := chatLog + [ChatFinished(sender, FileCreateKind)];
        if controller.context.action == Some(CreatingFile) {
          controller.SetContext(NoContext);
        }
      } else {
        controller.SetContext(NoContext);
      }
    }

    /** `handle_stream_finished`: success tags go to `FinishCreation`, the
        other kinds to `FinishStream`; `path` is the save path of a success
        tag. */
    method HandleStreamFinished(sender: string, kind: string, viewDir: string, cwd: string, root: string, writeOk: bool)
      returns (path: string)
      requires Valid()
      modifies this`buffer, this`disk, this`chatLog, editor`tabs, editor`streaming, editor`saveEnabled,
        editor`reloadEnabled, controller`context
      ensures Valid()
      ensures controller.context == FinishContext(kind, old(controller.context), writeOk)
      ensures StartsWith(kind, CreateSuccessTag) ==>
        var name := AfterFirstColon(kind);
        buffer == [] && unchanged(editor) &&
        SavedPath(old(disk), name, viewDir, cwd, root, path) &&
        disk == (if writeOk then old(disk)[path := WrittenFile(old(buffer))] else old(disk)) &&
        chatLog == old(chatLog) + SaveNotices(old(disk), name, viewDir, cwd, root, writeOk, path) +
          (if writeOk then [ChatFinished(sender, FileCreateKind)] else [])
      ensures !StartsWith(kind, CreateSuccessTag) ==> disk == old(disk)
      ensures kind == EditorKind ==>
        buffer == old(buffer) && chatLog == old(chatLog) &&
        (if old(editor.streaming) then
          !editor.streaming &&
          (old(editor.HasTab()) ==>
            editor.tabs == old(editor.tabs)[editor.current := FinishedTab(old(editor.tabs[editor.current]))] &&
            editor.saveEnabled == editor.CanSave() && editor.reloadEnabled == editor.CanReload(disk)) &&
          (!old(editor.HasTab()) ==> editor.tabs == old(editor.tabs))
        else unchanged(editor))
      ensures kind == ChatKind ==>
        buffer == old(buffer) && chatLog == old(chatLog) + [ChatFinished(sender, ChatKind)] && unchanged(editor)
      ensures kind == FileCreateKind ==>
        buffer == [] && chatLog == old(chatLog) + [ChatFinished(sender, FileCreateKind)] && unchanged(editor)
      ensures kind != EditorKind && kind != ChatKind && kind != FileCreateKind && !StartsWith(kind, CreateSuccessTag) ==>
        buffer == old(buffer) && chatLog == old(chatLog) && unchanged(editor)
    {
      path := [];
      if StartsWith(kind, CreateSuccessTag) {
        path := FinishCreation(sender, kind, viewDir, cwd, root, writeOk);
      } else {
        FinishStream(sender, kind);
      }
    }

    /** The other kinds of `handle_stream_finished`. An editor finish goes to the editor and clears a
        pending edit; chat and plain file finishes are shown in the chat, a
        plain file finish drops the buffer, and both clear the context, as
        does an unknown kind. */
    method FinishStream(sender: string, kind: string)
      requires Valid() && !StartsWith(kind, CreateSuccessTag)
      modifies this`buffer, this`chatLog, editor`tabs, editor`streaming, editor`saveEnabled,
        editor`reloadEnabled, controller`context
      ensures Valid()
      ensures controller.context == FinishContext(kind, old(controller.context), false)
      ensures kind == EditorKind ==>
        buffer == old(buffer) && chatLog == old(chatLog) &&
        (if old(editor.streaming) then
          !editor.streaming &&
          (old(editor.HasTab()) ==>
            editor.tabs == old(editor.tabs)[editor.current := FinishedTab(old(editor.tabs[editor.current]))] &&
            editor.saveEnabled == editor.CanSave() && editor.reloadEnabled == editor.CanReload(disk)) &&
          (!old(editor.HasTab()) ==> editor.tabs == old(editor.tabs))
        else unchanged(editor))
      ensures kind == ChatKind ==>
        buffer == old(buffer) && chatLog == old(chatLog) + [ChatFinished(sender, ChatKind)] && unchanged(editor)
      ensures kind == FileCreateKind ==>
        buffer == [] && chatLog == old(chatLog) + [ChatFinished(sender, FileCreateKind)] && unchanged(editor)
      ensures kind != EditorKind && kind != ChatKind && kind != FileCreateKind ==>
        buffer == old(buffer) && chatLog == old(chatLog) && unchanged(editor)
    {
      if kind == EditorKind {
        editor.HandleStreamFinished(sender, kind, disk);
        if controller.context.action == Some(Edit) || controller.context.action == Some(EditEditor) {
          controller.SetContext(NoContext);
        }
      } else if kind == ChatKind {
        chatLog := chatLog + [ChatFinished(sender, kind)];
        controller.SetContext(NoContext);
      } else if kind == FileCreateKind {
        chatLog := chatLog + [ChatFinished(sender, kind)];
        buffer := [];
        controller.SetContext(NoContext);
      } else {
        controller.SetContext(NoContext);
      }
    }

    /** `handle_stream_error`: an error tagged with a success tag counts as
        a file error. Editor errors go to the editor, chat and file errors to
        the chat, any other kind becomes an error notice naming the kind. A
        file error drops the buffer, and every error clears the context. */
    method HandleStreamError(message: string, kind: string)
      requires Valid()
      modifies this`buffer, this`chatLog, editor`tabs, editor`streaming, editor`saveEnabled,
        editor`reloadEnabled, controller`context
      ensures Valid()
      ensures controller.context == NoContext
      ensures var ui := ErrorRoute(kind);
        buffer == (if ui == FileCreateKind then [] else old(buffer)) &&
        (ui == EditorKind ==>
          chatLog == old(chatLog) && !editor.streaming &&
          (if old(editor.HasTab()) && old(editor.tabs[editor.current].text) != [] &&
            !old(editor.tabs[editor.current].modified) then
            editor.tabs == old(editor.tabs)[editor.current := ModifiedTab(old(editor.tabs[editor.current]))] &&
            editor.saveEnabled == editor.CanSave() && editor.reloadEnabled == editor.CanReload(disk)
          else
            editor.tabs == old(editor.tabs) && editor.saveEnabled == old(editor.saveEnabled) &&
            editor.reloadEnabled == old(editor.reloadEnabled))) &&
        (ui == ChatKind || ui == FileCreateKind ==> chatLog == old(chatLog) + [ChatError(message, ui)] && unchanged(editor)) &&
        (ui != EditorKind && ui != ChatKind && ui != FileCreateKind ==>
          chatLog == old(chatLog) + [Notice("Error", "(" + ui + ") " + message, false)] && unchanged(editor))
    {
      var ui := ErrorRoute(kind);
      if ui == EditorKind {
        editor.HandleStreamError(message, ui, disk);
      } else if ui == ChatKind || ui == FileCreateKind {
        chatLog := chatLog + [ChatError(message, ui)];
      } else {
        chatLog := chatLog + [Notice("Error", "(" + ui + ") " + message, false)];
      }
      if ui == FileCreateKind {
        buffer := [];
      }
      controller.SetContext(NoContext);
    }

    /** `handle_edit_request`: the first path is opened in the editor; when
        it got a new tab the controller awaits instructions for all the
        paths, otherwise the failure is reported and the context cleared. */
    method HandleEditRequest(paths: seq<string>)
      requires Valid()
      modifies this`chatLog, editor`tabs, editor`current, editor`saveEnabled, editor`reloadEnabled, controller`context
      ensures Valid()
      ensures controller.context == EditRequestContext(old(editor.tabs), old(editor.current), paths, disk)
      ensures paths != [] ==>
        var r := OpenAll(StartOpening(old(editor.tabs), old(editor.current)), [paths[0]], disk);
        editor.tabs == r.tabs && editor.current == r.current &&
        chatLog == old(chatLog) + [EditRequestNotice(paths[0], controller.context != NoContext)]
      ensures paths == [] ==> chatLog == old(chatLog) && unchanged(editor)
    {
      if paths != [] {
        var added := editor.OpenFiles([paths[0]], disk);
        if added == [] || added[0] != paths[0] {
          chatLog := chatLog + [EditRequestNotice(paths[0], false)];
          controller.SetContext(NoContext);
          return;
        }
        controller.SetContext(Context(Some(Edit), paths, "", ""));
        chatLog := chatLog + [EditRequestNotice(paths[0], true)];
      } else {
        controller.SetContext(NoContext);
      }
    }

    /** `handle_edit_file_requested_from_chat`: the file is opened in the
        editor; when it is missing or gets no new tab, an error is shown and
        a pending file edit is cancelled. */
    method HandleEditFileRequested(fullPath: string)
      requires Valid()
      modifies this`chatLog, editor`tabs, editor`current, editor`saveEnabled, editor`reloadEnabled, controller`context
      ensures Valid()
      ensures var r := OpenAll(StartOpening(old(editor.tabs), old(editor.current)), [fullPath], disk);
        var tabbed := IsFile(disk, fullPath) && r.newPaths != [];
        (IsFile(disk, fullPath) ==> editor.tabs == r.tabs && editor.current == r.current) &&
        (!IsFile(disk, fullPath) ==> unchanged(editor)) &&
        (tabbed ==> controller.context == old(controller.context) && chatLog == old(chatLog)) &&
        (!tabbed ==>
          controller.context == (if old(controller.context).action == Some(Edit) then NoContext else old(controller.context)) &&
          chatLog == old(chatLog) + [OpenFailedNotice(fullPath, IsFile(disk, fullPath))])
    {
      if IsFile(disk, fullPath) {
        var added := editor.OpenFiles([fullPath], disk);
        if added == [] {
          chatLog := chatLog + [OpenFailedNotice(fullPath, true)];
          if controller.context.action == Some(Edit) {
            controller.SetContext(NoContext);
          }
        }
      } else {
        chatLog := chatLog + [OpenFailedNotice(fullPath, false)];
        if controller.context.action == Some(Edit) {
          controller.SetContext(NoContext);
        }
      }
    }
  }
}
