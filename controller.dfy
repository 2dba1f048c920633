/** The controller: the context that decides what the next chat message
    means, the chat commands, the requests it makes to the generative model
    and the model list. Signals go to an appended log; the prompts of the
    requests actually made go to a second log. The editor pane is read
    through its current tab; the file pane's current directory, the file
    system and the model's answer are inputs. */
module Controller {
  import opened Text
  import opened Files
  import opened Prompts
  import opened Streaming
  import opened ReadFiles
  import opened Editor

  datatype Action = Edit | EditEditor | Create | CreatingFile

  /** `current_context`. An absent key is the empty list or string, which the
      source treats the same as a present empty one. */
  datatype Context = Context(action: Option<Action>, files: seq<string>, filename: string, path: string)

  const NoContext: Context := Context(None, [], "", "")

  const CurrentTab: string := "current tab"
  const GeminiSender: string := "Gemini"
  const InitialModel: string := "gemini-1.5-flash-latest"
  const DefaultCreateName: string := "gemini_generated_file.txt"
  const GeneratedPrefix: string := "gemini_generated_"
  const GeneratedSuffix: string := ".txt"
  const CreateSuccessTag: string := "create_success:"

  const NoFilesToExplain: string := "No files were read successfully to explain."
  const EditReadFailed: string := "Cannot edit: File(s) could not be read or path missing."
  const EditLostFiles: string := "Internal Error: Edit context lost file information."
  const NoEditorContent: string := "Cannot edit: No active editor tab found or content is inaccessible."
  const CreateLostName: string := "Internal Error: Create context lost filename information."
  const CreateUsage: string := "Usage: /create <filename>\n(Provide description in the next message)"
  const ExplainUsage: string := "Usage: /explain <filename>"
  const EditUsage: string := "Usage: /edit <filename>"
  const NoTabToExplain: string := "Error: No active editor tab found to explain."
  const NoTabToEdit: string := "Error: No active editor tab found to edit."
  const FilenameLost: string := "Internal Error: Filename lost during file creation."

  function CouldNotRead(name: string): string {
    "Could not read '" + name + "' for editing."
  }

  function NotFoundIn(name: string, dir: string): string {
    "Error: File '" + name + "' not found in '" + Basename(dir) + "'."
  }

  /** What one operation emits: signals, and the prompts sent to the model. */
  datatype Emission = Emission(signals: seq<Signal>, sent: seq<Prompt>)

  /** The context an operation leaves and what it emits. */
  datatype Step = Step(context: Context, out: Emission)

  function Fail(message: string, kind: string): Emission {
    Emission([StreamError(message, kind)], [])
  }

  /** One streamed request; the prompt is sent only when a model is ready. */
  function Request(m: ModelState, prompt: Prompt, kind: string, r: Response): Emission {
    Emission(StreamEvents(m, GeminiSender, kind, r), if Ready(m) then [prompt] else [])
  }

  /** The lower-cased first whitespace-separated word of the stripped message
      and the stripped rest (`split(maxsplit=1)`). */
  function ParseCommand(message: string): (string, string) {
    var s := Strip(message);
    if s == [] then ("", "")
    else
      var k := TokenEnd(s);
      (Lower(s[..k]), Strip(s[k..]))
  }

  /** The command is empty exactly for a blank message; otherwise it is the
      lower-cased maximal leading run of non-whitespace of the stripped
      message, and the argument is what follows it, stripped. */
  lemma ParseCommandSpec(message: string)
    ensures var s := Strip(message);
      (ParseCommand(message).0 == [] <==> s == []) &&
      (s != [] ==> (exists k :: 0 < k <= |s| && NoSpace(s[..k]) && (k == |s| || IsSpace(s[k])) &&
                     ParseCommand(message).0 == Lower(s[..k]) && ParseCommand(message).1 == Strip(s[k..])))
  {
    var s := Strip(message);
    StripSpec(message);
    if s != [] {
      var k := TokenEnd(s);
      TokenEndSpec(s);
      assert k > 0;
      assert |Lower(s[..k])| == k;
      assert NoSpace(s[..k]);
    }
  }

  /** Characters `/create` keeps in a file name. */
  predicate CreateNameChar(c: char) {
    IsAlnum(c) || c == '.' || c == '_' || c == '-' || c == ' '
  }

  /** The file name `/create` derives from its argument. */
  function CreateFileName(raw: string): string {
    var kept := Strip(Filter(raw, CreateNameChar));
    if kept == [] then DefaultCreateName
    else if kept == "." || kept == "_" || kept == "-" then GeneratedPrefix + kept + GeneratedSuffix
    else kept
  }

  /** A valid `/create` name: non-empty, not a lone `.`, `_` or `-`, only
      kept characters, no whitespace at either end. */
  predicate ValidCreateName(name: string) {
    name != [] && name != "." && name != "_" && name != "-" &&
    (forall i :: 0 <= i < |name| ==> CreateNameChar(name[i])) &&
    !IsSpace(name[0]) && !IsSpace(name[|name| - 1])
  }

  /** What survives filtering and stripping holds only kept characters and
      has no whitespace at either end. */
  lemma CreateNameKept(raw: string)
    ensures var kept := Strip(Filter(raw, CreateNameChar));
      (forall i :: 0 <= i < |kept| ==> CreateNameChar(kept[i])) &&
      (kept == [] || (!IsSpace(kept[0]) && !IsSpace(kept[|kept| - 1])))
  {
    var f := Filter(raw, CreateNameChar);
    var kept := Strip(f);
    StripSpec(f);
    if kept != [] {
      var k :| OccursAt(f, kept, k);
      forall i | 0 <= i < |kept| ensures CreateNameChar(kept[i]) {
        assert kept[i] == f[k + i];
      }
    }
  }

  /** A valid name is its own `/create` name. */
  lemma ValidNameFixed(name: string)
    requires ValidCreateName(name)
    ensures CreateFileName(name) == name
  {
    FilterKeepsAll(name, CreateNameChar);
    assert Strip(name) == name;
  }

  /** The fall-back names are valid. */
  lemma DefaultNameValid()
    ensures ValidCreateName(DefaultCreateName)
  {
    assert forall i :: 0 <= i < |DefaultCreateName| ==> CreateNameChar(DefaultCreateName[i]);
  }

  lemma GeneratedNameValid(kept: string)
    requires kept == "." || kept == "_" || kept == "-"
    ensures ValidCreateName(GeneratedPrefix + kept + GeneratedSuffix)
  {
    var n := GeneratedPrefix + kept + GeneratedSuffix;
    assert forall i :: 0 <= i < |GeneratedPrefix| ==> CreateNameChar(GeneratedPrefix[i]);
    assert forall i :: 0 <= i < |GeneratedSuffix| ==> CreateNameChar(GeneratedSuffix[i]);
    forall i | 0 <= i < |n| ensures CreateNameChar(n[i]) {
      if i < |GeneratedPrefix| {
        assert n[i] == GeneratedPrefix[i];
      } else if i < |GeneratedPrefix| + |kept| {
        assert n[i] == kept[i - |GeneratedPrefix|];
      } else {
        assert n[i] == GeneratedSuffix[i - |GeneratedPrefix| - |kept|];
      }
    }
    assert n[0] == 'g' && n[|n| - 1] == 't';
  }

  /** A `/create` name is valid (so it holds no `/`), and deriving it again
      changes nothing. */
  lemma CreateFileNameSpec(raw: string)
    ensures ValidCreateName(CreateFileName(raw))
    ensures CreateFileName(CreateFileName(raw)) == CreateFileName(raw)
  {
    CreateNameKept(raw);
    var kept := Strip(Filter(raw, CreateNameChar));
    if kept == [] {
      DefaultNameValid();
    } else if kept == "." || kept == "_" || kept == "-" {
      GeneratedNameValid(kept);
    }
    ValidNameFixed(CreateFileName(raw));
  }

  /** The context branches and the commands of `process_user_chat`, as one
      function of the context, the model state, the message and the inputs
      it reads: the file system, the file pane's directory and the editor's
      current text and path. */
  function ChatStep(ctx: Context, m: ModelState, message: string, fs: FileSystem, viewDir: string,
                    content: Option<string>, path: Option<string>, r: Response): Step
  {
    match ctx.action
    case Some(Edit) => EditReply(ctx, m, message, fs, r)
    case Some(EditEditor) => EditorEditReply(ctx, m, message, content, r)
    case Some(Create) => CreateReply(ctx, m, message, r)
    case _ =>
      var parsed := ParseCommand(message);
      CommandStep(ctx, m, message, CommandOf(parsed.0), parsed.1, fs, viewDir, content, path, r)
  }

  /** The instructions that follow `/edit <file>`. */
  function EditReply(ctx: Context, m: ModelState, message: string, fs: FileSystem, r: Response): Step {
    if ctx.files != [] then Step(NoContext, EditRequest(m, ctx.files, message, fs, r))
    else Step(NoContext, Fail(EditLostFiles, EditorKind))
  }

  /** The instructions that follow `/edit_editor`: the tab's text as it is
      when they arrive is edited. */
  function EditorEditReply(ctx: Context, m: ModelState, message: string, content: Option<string>, r: Response): Step {
    var hint := if ctx.path != [] && ctx.path != CurrentTab then Basename(ctx.path) else CurrentTab;
    if content.Some? then Step(NoContext, Request(m, EditText(hint, content.value, message, []), EditorKind, r))
    else Step(NoContext, Fail(NoEditorContent, EditorKind))
  }

  /** The description that follows `/create <name>`. */
  function CreateReply(ctx: Context, m: ModelState, message: string, r: Response): Step {
    if ctx.filename != [] then
      Step(ctx.(action := Some(CreatingFile)), Request(m, CreateFile(ctx.filename, message), FileCreateKind, r))
    else Step(NoContext, Fail(CreateLostName, ChatKind))
  }

  /** `os.path.basename` of the tab's path when it has a non-empty one,
      otherwise "current tab". */
  function TabHint(path: Option<string>): string {
    if path.Some? && path.value != [] then Basename(path.value) else CurrentTab
  }

  function CreatingNotice(name: string): string {
    "Creating '" + name + "'. Provide description/content prompt in next message."
  }

  function EditingNotice(name: string): string {
    "Editing '" + name + "'. Provide instructions in next message."
  }

  function EditingTabNotice(hint: string): string {
    "Editing content of '" + hint + "'. Provide instructions in next message."
  }

  /** The commands, for a message that is not the payload of a context;
      `cmd` and `args` are what `ParseCommand` makes of the message. */
  function CommandStep(ctx: Context, m: ModelState, message: string, cmd: Command, args: string, fs: FileSystem, viewDir: string,
                       content: Option<string>, path: Option<string>, r: Response): Step
  {
    match cmd
    case CreateCmd => CreateCommand(ctx, args)
    case ExplainCmd => ExplainCommand(ctx, m, args, fs, viewDir, r)
    case EditCmd => EditCommand(ctx, args, fs, viewDir)
    case ExplainEditorCmd => ExplainEditorCommand(ctx, m, content, path, r)
    case EditEditorCmd => EditEditorCommand(ctx, content, path)
    case ChatCmd => Step(ctx, Request(m, ChatMessage(message), ChatKind, r))
  }

  /** The chat commands; anything else is a plain chat message. */
  datatype Command = CreateCmd | ExplainCmd | EditCmd | ExplainEditorCmd | EditEditorCmd | ChatCmd

  /** The command a (lower-cased) first word names. */
  function CommandOf(word: string): Command {
    if word == "/create" then CreateCmd
    else if word == "/explain" then ExplainCmd
    else if word == "/edit" then EditCmd
    else if word == "/explain_editor" then ExplainEditorCmd
    else if word == "/edit_editor" then EditEditorCmd
    else ChatCmd
  }

  function CreateCommand(ctx: Context, args: string): Step {
    if args != [] then
      var name := CreateFileName(args);
      Step(Context(Some(Create), [], name, ""), Emission([EditContextSet(CreatingNotice(name))], []))
    else Step(ctx, Fail(CreateUsage, ChatKind))
  }

  function ExplainCommand(ctx: Context, m: ModelState, args: string, fs: FileSystem, viewDir: string, r: Response): Step {
    if args != [] then
      var full := Join(viewDir, args);
      if IsFile(fs, full) then ExplainStep(ctx, m, [full], fs, r)
      else Step(ctx, Fail(NotFoundIn(args, viewDir), ChatKind))
    else Step(ctx, Fail(ExplainUsage, ChatKind))
  }

  function EditCommand(ctx: Context, args: string, fs: FileSystem, viewDir: string): Step {
    if args != [] then
      var full := Join(viewDir, args);
      if IsFile(fs, full) then
        Step(Context(Some(Edit), [full], "", ""), Emission([EditFileRequested(full), EditContextSet(EditingNotice(args))], []))
      else Step(ctx, Fail(NotFoundIn(args, viewDir), ChatKind))
    else Step(ctx, Fail(EditUsage, ChatKind))
  }

  function ExplainEditorCommand(ctx: Context, m: ModelState, content: Option<string>, path: Option<string>, r: Response): Step {
    if content.Some? then Step(ctx, Request(m, ExplainTab(TabHint(path), content.value), ChatKind, r))
    else Step(ctx, Fail(NoTabToExplain, ChatKind))
  }

  function EditEditorCommand(ctx: Context, content: Option<string>, path: Option<string>): Step {
    if content.Some? then
      var stored := if path.Some? && path.value != [] then path.value else CurrentTab;
      Step(Context(Some(EditEditor), [], "", stored), Emission([EditContextSet(EditingTabNotice(TabHint(path)))], []))
    else Step(ctx, Fail(NoTabToEdit, ChatKind))
  }

  /** `request_explanation`: the context is cleared only when some file was read. */
  function ExplainStep(ctx: Context, m: ModelState, paths: seq<string>, fs: FileSystem, r: Response): Step {
    var contents := ReadFrom(paths, fs, 0, []);
    if contents == [] then Step(ctx, Fail(NoFilesToExplain, ChatKind))
    else Step(NoContext, Request(m, ExplainFiles(contents), ChatKind, r))
  }

  /** `request_edit`: the first path is the target, every file read is context. */
  function EditRequest(m: ModelState, paths: seq<string>, instructions: string, fs: FileSystem, r: Response): Emission {
    var contents := ReadFrom(paths, fs, 0, []);
    if contents == [] || paths == [] then Fail(EditReadFailed, EditorKind)
    else
      var target := Basename(paths[0]);
      match Lookup(contents, paths[0])
      case None => Fail(CouldNotRead(target), EditorKind)
      case Some(c) => Request(m, EditText(target, c, instructions, contents), EditorKind, r)
  }

  /** `finalize_generated_file`: only a `creating_file` context is finished. */
  function FinalizeStep(ctx: Context): Step {
    if ctx.action == Some(CreatingFile) then
      if ctx.filename != [] then Step(NoContext, Emission([StreamFinished("GemNet", CreateSuccessTag + ctx.filename)], []))
      else Step(NoContext, Fail(FilenameLost, ChatKind))
    else Step(ctx, Emission([], []))
  }

  /** A request either reports that no model is ready, or starts a stream
      tagged for `kind` and sends exactly its prompt. */
  lemma RequestSpec(m: ModelState, prompt: Prompt, kind: string, r: Response)
    ensures var e := Request(m, prompt, kind, r);
      Tagged(e.signals, kind) && |e.signals| >= 1 &&
      (Ready(m) <==> e.signals[0] == StreamStarted(GeminiSender, kind)) &&
      (Ready(m) ==> e.sent == [prompt]) &&
      (!Ready(m) ==> e.sent == [] && |e.signals| == 1 && e.signals[0].StreamError?)
  {
    StreamTagged(m, GeminiSender, kind, r);
    StreamEventsSpec(m, GeminiSender, kind, r);
  }

  /** The instructions after `/edit <file>`: the context is always cleared and
      every signal goes to the editor. Without files exactly one error is
      emitted and nothing is sent; with a ready model and a readable target,
      one edit of the target, quoting the instructions, is streamed. */
  lemma EditReplySpec(ctx: Context, m: ModelState, message: string, fs: FileSystem, viewDir: string,
                      content: Option<string>, path: Option<string>, r: Response)
    requires ctx.action == Some(Edit)
    ensures var st := ChatStep(ctx, m, message, fs, viewDir, content, path, r);
      st.context == NoContext && Tagged(st.out.signals, EditorKind) && |st.out.sent| <= 1 &&
      (ctx.files == [] ==> st.out.signals == [StreamError(EditLostFiles, EditorKind)] && st.out.sent == []) &&
      (ctx.files != [] && Ready(m) && Lookup(ReadFrom(ctx.files, fs, 0, []), ctx.files[0]).Some? ==>
        st.out.signals[0] == StreamStarted(GeminiSender, EditorKind) &&
        st.out.sent == [EditText(Basename(ctx.files[0]), Lookup(ReadFrom(ctx.files, fs, 0, []), ctx.files[0]).value,
                                 message, ReadFrom(ctx.files, fs, 0, []))])
  {
    if ctx.files != [] {
      var contents := ReadFrom(ctx.files, fs, 0, []);
      match Lookup(contents, ctx.files[0])
      case None =>
      case Some(c) => RequestSpec(m, EditText(Basename(ctx.files[0]), c, message, contents), EditorKind, r);
    }
  }

  /** The instructions after `/edit_editor`: the context is always cleared,
      every signal goes to the editor, and an edit of the tab's text is
      streamed exactly when there is a tab and a ready model; without a tab
      exactly one error is emitted. */
  lemma EditorEditReplySpec(ctx: Context, m: ModelState, message: string, fs: FileSystem, viewDir: string,
                            content: Option<string>, path: Option<string>, r: Response)
    requires ctx.action == Some(EditEditor)
    ensures var st := ChatStep(ctx, m, message, fs, viewDir, content, path, r);
      st.context == NoContext && Tagged(st.out.signals, EditorKind) &&
      (st.out.signals[0] == StreamStarted(GeminiSender, EditorKind) <==> content.Some? && Ready(m)) &&
      (content.None? ==> st.out.signals == [StreamError(NoEditorContent, EditorKind)] && st.out.sent == []) &&
      (content.Some? && Ready(m) ==>
        |st.out.sent| == 1 && st.out.sent[0].EditText? &&
        st.out.sent[0].content == content.value && st.out.sent[0].instructions == message && st.out.sent[0].files == [])
  {
    if content.Some? {
      var hint := if ctx.path != [] && ctx.path != CurrentTab then Basename(ctx.path) else CurrentTab;
      RequestSpec(m, EditText(hint, content.value, message, []), EditorKind, r);
    }
  }

  /** The description after `/create <name>`: with a name, the action becomes
      `creating_file`, the name is kept and the file-creation stream is
      requested; without one, one chat error is emitted and the context is
      cleared. */
  lemma CreateReplySpec(ctx: Context, m: ModelState, message: string, fs: FileSystem, viewDir: string,
                        content: Option<string>, path: Option<string>, r: Response)
    requires ctx.action == Some(Create)
    ensures var st := ChatStep(ctx, m, message, fs, viewDir, content, path, r);
      (ctx.filename != [] ==>
        st.context.action == Some(CreatingFile) && st.context.filename == ctx.filename &&
        Tagged(st.out.signals, FileCreateKind) &&
        (Ready(m) ==> st.out.signals[0] == StreamStarted(GeminiSender, FileCreateKind) &&
                      st.out.sent == [CreateFile(ctx.filename, message)])) &&
      (ctx.filename == [] ==>
        st.context == NoContext && st.out.signals == [StreamError(CreateLostName, ChatKind)] && st.out.sent == [])
  {
    if ctx.filename != [] {
      RequestSpec(m, CreateFile(ctx.filename, message), FileCreateKind, r);
    }
  }

  /** With no context, or a `creating_file` one (which no branch matches),
      the message is read as a command. */
  lemma CommandFallThrough(ctx: Context, m: ModelState, message: string, fs: FileSystem, viewDir: string,
                           content: Option<string>, path: Option<string>, r: Response)
    requires ctx.action == None || ctx.action == Some(CreatingFile)
    ensures var parsed := ParseCommand(message);
      ChatStep(ctx, m, message, fs, viewDir, content, path, r) ==
      CommandStep(ctx, m, message, CommandOf(parsed.0), parsed.1, fs, viewDir, content, path, r)
  {
  }

  /** A message whose first word is no command is chat: it leaves the
      context as it was and its signals all go to the chat. */
  lemma ChatMessageSpec(ctx: Context, m: ModelState, message: string, args: string, fs: FileSystem, viewDir: string,
                        content: Option<string>, path: Option<string>, r: Response)
    ensures var st := CommandStep(ctx, m, message, ChatCmd, args, fs, viewDir, content, path, r);
      st.context == ctx && Tagged(st.out.signals, ChatKind) && (Ready(m) ==> st.out.sent == [ChatMessage(message)])
  {
    RequestSpec(m, ChatMessage(message), ChatKind, r);
  }

  /** `/create`: an empty argument gives one usage error and leaves the
      context alone; otherwise the context awaits the description of a file
      with a valid name, and the user is told so. */
  lemma CreateCommandSpec(ctx: Context, m: ModelState, message: string, args: string, fs: FileSystem, viewDir: string,
                          content: Option<string>, path: Option<string>, r: Response)
    ensures var st := CommandStep(ctx, m, message, CreateCmd, args, fs, viewDir, content, path, r);
      st.out.sent == [] &&
      (args == [] ==> st.context == ctx && st.out.signals == [StreamError(CreateUsage, ChatKind)]) &&
      (args != [] ==>
        st.context.action == Some(Create) && ValidCreateName(st.context.filename) &&
        st.out.signals == [EditContextSet(CreatingNotice(st.context.filename))])
  {
    CreateFileNameSpec(args);
  }

  /** `/edit`: for an existing file in the file pane's directory the editor
      is asked to open it, then the user is prompted, and the context awaits
      the instructions for that one file; otherwise one chat error is
      emitted and the context is left alone. Nothing is sent to the model. */
  lemma EditCommandSpec(ctx: Context, m: ModelState, message: string, args: string, fs: FileSystem, viewDir: string,
                        content: Option<string>, path: Option<string>, r: Response)
    ensures var st := CommandStep(ctx, m, message, EditCmd, args, fs, viewDir, content, path, r);
      var full := Join(viewDir, args);
      st.out.sent == [] &&
      (args != [] && IsFile(fs, full) ==>
        st.context == Context(Some(Edit), [full], "", "") &&
        |st.out.signals| == 2 && st.out.signals[0] == EditFileRequested(full) && st.out.signals[1].EditContextSet?) &&
      (!(args != [] && IsFile(fs, full)) ==>
        st.context == ctx && |st.out.signals| == 1 && st.out.signals[0].StreamError? && st.out.signals[0].kind == ChatKind) &&
      (args == [] ==> st.out.signals == [StreamError(EditUsage, ChatKind)]) &&
      (args != [] && !IsFile(fs, full) ==> st.out.signals == [StreamError(NotFoundIn(args, viewDir), ChatKind)])
  {
  }

  /** `/explain` asks for an explanation of one existing file of the file
      pane's directory and clears the context once some file was read; a
      missing argument, a missing file or a file that cannot be read gives
      one chat error (the usage, the file not found in the directory, no
      file read) and keeps the context. Every signal goes to the chat. */
  lemma ExplainCommandSpec(ctx: Context, m: ModelState, message: string, args: string, fs: FileSystem, viewDir: string,
                           content: Option<string>, path: Option<string>, r: Response)
    ensures var st := CommandStep(ctx, m, message, ExplainCmd, args, fs, viewDir, content, path, r);
      var full := Join(viewDir, args);
      var read := ReadFrom([full], fs, 0, []);
      Tagged(st.out.signals, ChatKind) &&
      (st.context == NoContext || st.context == ctx) &&
      (args != [] && IsFile(fs, full) && read != [] ==>
        st.context == NoContext &&
        (Ready(m) ==> st.out.sent == [ExplainFiles(read)])) &&
      (!(args != [] && IsFile(fs, full) && read != []) ==> st.context == ctx && |st.out.signals| == 1 && st.out.sent == []) &&
      (args == [] ==> st.out.signals == [StreamError(ExplainUsage, ChatKind)]) &&
      (args != [] && !IsFile(fs, full) ==> st.out.signals == [StreamError(NotFoundIn(args, viewDir), ChatKind)]) &&
      (args != [] && IsFile(fs, full) && read == [] ==> st.out.signals == [StreamError(NoFilesToExplain, ChatKind)])
  {
    var full := Join(viewDir, args);
    var read := ReadFrom([full], fs, 0, []);
    if args != [] && IsFile(fs, full) && read != [] {
      RequestSpec(m, ExplainFiles(read), ChatKind, r);
    }
  }

  /** `/explain_editor` and `/edit_editor` leave the context alone without a
      tab, with one chat error; with a tab, the first streams an
      explanation of the tab's text to the chat and the second makes the
      context await instructions for that tab, remembering the tab's path,
      or "current tab" when it has none. */
  lemma EditorCommandsSpec(ctx: Context, m: ModelState, message: string, args: string, fs: FileSystem, viewDir: string,
                           content: Option<string>, path: Option<string>, r: Response)
    ensures var st := CommandStep(ctx, m, message, ExplainEditorCmd, args, fs, viewDir, content, path, r);
      st.context == ctx && Tagged(st.out.signals, ChatKind) &&
      (content.None? ==> st.out.signals == [StreamError(NoTabToExplain, ChatKind)] && st.out.sent == []) &&
      (content.Some? && Ready(m) ==> st.out.sent == [ExplainTab(TabHint(path), content.value)])
    ensures var st := CommandStep(ctx, m, message, EditEditorCmd, args, fs, viewDir, content, path, r);
      st.out.sent == [] &&
      (content.None? ==> st.context == ctx && st.out.signals == [StreamError(NoTabToEdit, ChatKind)]) &&
      (content.Some? ==>
        st.context == Context(Some(EditEditor), [], "", if path.Some? && path.value != [] then path.value else CurrentTab) &&
        st.context.path != [] &&
        st.out.signals == [EditContextSet(EditingTabNotice(TabHint(path)))])
  {
    if content.Some? {
      RequestSpec(m, ExplainTab(TabHint(path), content.value), ChatKind, r);
    }
  }

  /** The contexts the controller itself creates: an edit names at least one
      file, a creation a valid file name, an editor edit a non-empty path. */
  predicate WellFormed(ctx: Context) {
    match ctx.action
    case None => true
    case Some(Edit) => ctx.files != []
    case Some(EditEditor) => ctx.path != []
    case Some(Create) => ValidCreateName(ctx.filename)
    case Some(CreatingFile) => ValidCreateName(ctx.filename)
  }

  /** Every chat message keeps the context well formed, so the "context
      lost" errors never arise from chat messages alone. */
  lemma ChatStepWellFormed(ctx: Context, m: ModelState, message: string, fs: FileSystem, viewDir: string,
                           content: Option<string>, path: Option<string>, r: Response)
    requires WellFormed(ctx)
    ensures WellFormed(ChatStep(ctx, m, message, fs, viewDir, content, path, r).context)
  {
    match ctx.action
    case Some(Edit) =>
    case Some(EditEditor) =>
    case Some(Create) =>
    case _ =>
      var parsed := ParseCommand(message);
      CommandStepWellFormed(ctx, m, message, CommandOf(parsed.0), parsed.1, fs, viewDir, content, path, r);
  }

  lemma CommandStepWellFormed(ctx: Context, m: ModelState, message: string, cmd: Command, args: string, fs: FileSystem,
                              viewDir: string, content: Option<string>, path: Option<string>, r: Response)
    requires WellFormed(ctx)
    ensures WellFormed(CommandStep(ctx, m, message, cmd, args, fs, viewDir, content, path, r).context)
  {
    if cmd == CreateCmd && args != [] {
      CreateFileNameSpec(args);
    }
  }

  /** Finishing a creation keeps a well-formed context well formed and
      reports the file's name after the success tag. */
  lemma FinalizeStepSpec(ctx: Context)
    requires WellFormed(ctx)
    ensures var st := FinalizeStep(ctx);
      WellFormed(st.context) &&
      (ctx.action == Some(CreatingFile) ==>
        st.context == NoContext &&
        st.out.signals == [StreamFinished("GemNet", CreateSuccessTag + ctx.filename)]) &&
      (ctx.action != Some(CreatingFile) ==> st.context == ctx && st.out.signals == [])
  {
  }

  /** A model from the listing. */
  datatype ModelInfo = ModelInfo(name: string, methods: seq<string>)

  predicate Generative(mi: ModelInfo) {
    "generateContent" in mi.methods && StartsWith(mi.name, "models/")
  }

  /** The short names (text after the last `/`) of the listed models that
      generate content and are named `models/...`, in listing order. */
  function GenerativeNames(ms: seq<ModelInfo>): seq<string> {
    if ms == [] then []
    else
      var last := ms[|ms| - 1];
      GenerativeNames(ms[..|ms| - 1]) + (if Generative(last) then [Basename(last.name)] else [])
  }

  lemma {:induction false} GenerativeNamesSpec(ms: seq<ModelInfo>)
    ensures forall x :: x in GenerativeNames(ms) <==>
      exists i :: 0 <= i < |ms| && Generative(ms[i]) && x == Basename(ms[i].name)
    ensures |GenerativeNames(ms)| <= |ms|
  {
    if ms != [] {
      var init := ms[..|ms| - 1];
      GenerativeNamesSpec(init);
      forall x | x in GenerativeNames(ms)
        ensures exists i :: 0 <= i < |ms| && Generative(ms[i]) && x == Basename(ms[i].name)
      {
        if x in GenerativeNames(init) {
          var i :| 0 <= i < |init| && Generative(init[i]) && x == Basename(init[i].name);
          assert ms[i] == init[i];
        }
      }
      forall x | exists i :: 0 <= i < |ms| && Generative(ms[i]) && x == Basename(ms[i].name)
        ensures x in GenerativeNames(ms)
      {
        var i :| 0 <= i < |ms| && Generative(ms[i]) && x == Basename(ms[i].name);
        if i < |ms| - 1 {
          assert init[i] == ms[i];
        }
      }
    }
  }

  /** Index of the first name at or after `k` containing "flash", or -1. */
  function FirstFlash(names: seq<string>, k: nat): (r: int)
    ensures r == -1 || (k <= r < |names| && Contains(names[r], "flash"))
    ensures r == -1 ==> forall j :: k <= j < |names| ==> !Contains(names[j], "flash")
    ensures r >= 0 ==> forall j :: k <= j < r ==> !Contains(names[j], "flash")
    decreases |names| - k
  {
    if k >= |names| then -1
    else if Contains(names[k], "flash") then k
    else FirstFlash(names, k + 1)
  }

  /** The replacement for an invalid selection: the first name containing
      "flash", otherwise the first name. */
  function PickDefault(names: seq<string>): (r: string)
    requires names != []
    ensures r in names
    ensures (forall j :: 0 <= j < |names| ==> !Contains(names[j], "flash")) ==> r == names[0]
    ensures (exists j :: 0 <= j < |names| && Contains(names[j], "flash")) ==>
      exists i :: 0 <= i < |names| && r == names[i] && Contains(r, "flash") &&
        forall j :: 0 <= j < i ==> !Contains(names[j], "flash")
  {
    var i := FirstFlash(names, 0);
    if i >= 0 then names[i] else names[0]
  }

  class GeminiController {
    const editor: EditorPane
    var context: Context
    var selectedModel: string
    var availableModels: seq<string>
    /** Whether a model instance is loaded. */
    var modelLoaded: bool
    var configured: bool
    /** Every signal emitted, in order. */
    var signals: seq<Signal>
    /** Every prompt sent to the model, in order. */
    var sent: seq<Prompt>

    function Model(): ModelState
      reads this
    {
      ModelState(modelLoaded, selectedModel)
    }

    /** The state before any model is loaded; `configured` says whether the
        API key was found. */
    constructor(editor: EditorPane, configured: bool)
      ensures this.editor == editor && this.configured == configured
      ensures context == NoContext && selectedModel == InitialModel && availableModels == []
      ensures !modelLoaded && signals == [] && sent == []
    {
      this.editor := editor;
      this.configured := configured;
      context := NoContext;
      selectedModel := InitialModel;
      availableModels := [];
      modelLoaded := false;
      signals := [];
      sent := [];
    }

    method SetContext(c: Context)
      modifies this`context
      ensures context == c
    {
      context := c;
    }

    /** `_stream_gemini_api`. */
    method StreamGemini(prompt: Prompt, kind: string, response: Response)
      modifies this`signals, this`sent
      ensures var e := Request(Model(), prompt, kind, response);
        signals == old(signals) + e.signals && sent == old(sent) + e.sent
    {
      if !modelLoaded {
        signals := signals + [StreamError(NoModelMessage, kind)];
        return;
      }
      if selectedModel == [] {
        signals := signals + [StreamError(NoNameMessage, kind)];
        return;
      }
      sent := sent + [prompt];
      signals := signals + [StreamStarted(GeminiSender, kind)];
      ghost var all := signals + ChunkEvents(response.chunks, response.failure, GeminiSender, kind);
      for i := 0 to |response.chunks|
        invariant signals + ChunkEvents(response.chunks[i..], response.failure, GeminiSender, kind) == all
        invariant sent == old(sent) + [prompt]
      {
        assert response.chunks[i..][1..] == response.chunks[i + 1..];
        match response.chunks[i]
        case BlockedChunk(reason, category) =>
          signals := signals + [StreamError(BlockMessage(reason, category), kind)];
          return;
        case TextChunk(t) =>
          signals := signals + [StreamChunk(t)];
        case EmptyChunk =>
      }
      signals := signals + [Ending(response.failure, GeminiSender, kind)];
    }

    /** `request_explanation`. */
    method RequestExplanation(paths: seq<string>, fs: FileSystem, response: Response)
      modifies this`context, this`signals, this`sent
      ensures var st := ExplainStep(old(context), Model(), paths, fs, response);
        context == st.context && signals == old(signals) + st.out.signals && sent == old(sent) + st.out.sent
    {
      var contents := ReadFiles.ReadFiles(paths, fs);
      if contents == [] {
        signals := signals + [StreamError(NoFilesToExplain, ChatKind)];
        return;
      }
      StreamGemini(ExplainFiles(contents), ChatKind, response);
      context := NoContext;
    }

    /** `request_edit`. */
    method RequestEdit(paths: seq<string>, instructions: string, fs: FileSystem, response: Response)
      modifies this`signals, this`sent
      ensures var e := EditRequest(Model(), paths, instructions, fs, response);
        signals == old(signals) + e.signals && sent == old(sent) + e.sent
    {
      var contents := ReadFiles.ReadFiles(paths, fs);
      if contents == [] || paths == [] {
        signals := signals + [StreamError(EditReadFailed, EditorKind)];
        return;
      }
      var target := Basename(paths[0]);
      var content := Lookup(contents, paths[0]);
      if content.None? {
        signals := signals + [StreamError(CouldNotRead(target), EditorKind)];
        return;
      }
      StreamGemini(EditText(target, content.value, instructions, contents), EditorKind, response);
    }

    /** `process_user_chat`: a pending edit or create context takes the
        message as its payload; otherwise the message is a command or chat. */
    method ProcessUserChat(message: string, fs: FileSystem, viewDir: string, response: Response)
      modifies this`context, this`signals, this`sent
      ensures var st := ChatStep(old(context), Model(), message, fs, viewDir, editor.CurrentContent(), editor.CurrentPath(), response);
        context == st.context && signals == old(signals) + st.out.signals && sent == old(sent) + st.out.sent
    {
      var action := context.action;
      if action == Some(Edit) {
        ContinueEdit(message, fs, response);
      } else if action == Some(EditEditor) {
        ContinueEditorEdit(message, response);
      } else if action == Some(Create) {
        ContinueCreate(message, response);
      } else {
        var parsed := ParseCommand(message);
        RunCommand(message, CommandOf(parsed.0), parsed.1, fs, viewDir, response);
      }
    }

    method ContinueEdit(message: string, fs: FileSystem, response: Response)
      modifies this`context, this`signals, this`sent
      ensures var st := EditReply(old(context), Model(), message, fs, response);
        context == st.context && signals == old(signals) + st.out.signals && sent == old(sent) + st.out.sent
    {
      var files := context.files;
      if files != [] {
        RequestEdit(files, message, fs, response);
      } else {
        signals := signals + [StreamError(EditLostFiles, EditorKind)];
      }
      context := NoContext;
    }

    method ContinueEditorEdit(message: string, response: Response)
      modifies this`context, this`signals, this`sent
      ensures var st := EditorEditReply(old(context), Model(), message, editor.CurrentContent(), response);
        context == st.context && signals == old(signals) + st.out.signals && sent == old(sent) + st.out.sent
    {
      ghost var st := EditorEditReply(context, Model(), message, editor.CurrentContent(), response);
      var editorPath := context.path;
      var content := editor.CurrentContent();
      if content.Some? {
        var hint := if editorPath != [] && editorPath != CurrentTab then Basename(editorPath) else CurrentTab;
        StreamGemini(EditText(hint, content.value, message, []), EditorKind, response);
      } else {
        signals := signals + [StreamError(NoEditorContent, EditorKind)];
      }
      context := NoContext;
      assert editor.CurrentContent() == content;
    }

    method ContinueCreate(message: string, response: Response)
      modifies this`context, this`signals, this`sent
      ensures var st := CreateReply(old(context), Model(), message, response);
        context == st.context && signals == old(signals) + st.out.signals && sent == old(sent) + st.out.sent
    {
      var filename := context.filename;
      if filename != [] {
        context := context.(action := Some(CreatingFile));
        StreamGemini(CreateFile(filename, message), FileCreateKind, response);
      } else {
        signals := signals + [StreamError(CreateLostName, ChatKind)];
        context := NoContext;
      }
    }

    /** The command part of `process_user_chat`. */
    method RunCommand(message: string, cmd: Command, args: string, fs: FileSystem, viewDir: string, response: Response)
      modifies this`context, this`signals, this`sent
      ensures var st := CommandStep(old(context), Model(), message, cmd, args, fs, viewDir, editor.CurrentContent(), editor.CurrentPath(), response);
        context == st.context && signals == old(signals) + st.out.signals && sent == old(sent) + st.out.sent
    {
      match cmd
      case CreateCmd => RunCreate(args);
      case ExplainCmd => RunExplain(args, fs, viewDir, response);
      case EditCmd => RunEdit(args, fs, viewDir);
      case ExplainEditorCmd => RunExplainEditor(response);
      case EditEditorCmd => RunEditEditor();
      case ChatCmd => StreamGemini(ChatMessage(message), ChatKind, response);
    }

    method RunCreate(args: string)
      modifies this`context, this`signals
      ensures var st := CreateCommand(old(context), args);
        context == st.context && signals == old(signals) + st.out.signals && st.out.sent == []
    {
      if args != [] {
        var name := CreateFileName(args);
        SetContext(Context(Some(Create), [], name, ""));
        signals := signals + [EditContextSet(CreatingNotice(name))];
      } else {
        signals := signals + [StreamError(CreateUsage, ChatKind)];
      }
    }

    method RunExplain(args: string, fs: FileSystem, viewDir: string, response: Response)
      modifies this`context, this`signals, this`sent
      ensures var st := ExplainCommand(old(context), Model(), args, fs, viewDir, response);
        context == st.context && signals == old(signals) + st.out.signals && sent == old(sent) + st.out.sent
    {
      if args != [] {
        var full := Join(viewDir, args);
        if IsFile(fs, full) {
          RequestExplanation([full], fs, response);
        } else {
          signals := signals + [StreamError(NotFoundIn(args, viewDir), ChatKind)];
        }
      } else {
        signals := signals + [StreamError(ExplainUsage, ChatKind)];
      }
    }

    method RunEdit(args: string, fs: FileSystem, viewDir: string)
      modifies this`context, this`signals
      ensures var st := EditCommand(old(context), args, fs, viewDir);
        context == st.context && signals == old(signals) + st.out.signals && st.out.sent == []
    {
      if args != [] {
        var full := Join(viewDir, args);
        if IsFile(fs, full) {
          signals := signals + [EditFileRequested(full)];
          SetContext(Context(Some(Edit), [full], "", ""));
          signals := signals + [EditContextSet(EditingNotice(args))];
        } else {
          signals := signals + [StreamError(NotFoundIn(args, viewDir), ChatKind)];
        }
      } else {
        signals := signals + [StreamError(EditUsage, ChatKind)];
      }
    }

    method RunExplainEditor(response: Response)
      modifies this`signals, this`sent
      ensures var st := ExplainEditorCommand(context, Model(), editor.CurrentContent(), editor.CurrentPath(), response);
        context == st.context && signals == old(signals) + st.out.signals && sent == old(sent) + st.out.sent
    {
      var content := editor.CurrentContent();
      var hint := TabHint(editor.CurrentPath());
      if content.Some? {
        StreamGemini(ExplainTab(hint, content.value), ChatKind, response);
      } else {
        signals := signals + [StreamError(NoTabToExplain, ChatKind)];
      }
      assert editor.CurrentContent() == content && TabHint(editor.CurrentPath()) == hint;
    }

    method RunEditEditor()
      modifies this`context, this`signals
      ensures var st := EditEditorCommand(old(context), editor.CurrentContent(), editor.CurrentPath());
        context == st.context && signals == old(signals) + st.out.signals && st.out.sent == []
    {
      if editor.HasTab() {
        var pathProp := editor.CurrentPath();
        var hint := TabHint(pathProp);
        SetContext(Context(Some(EditEditor), [], "", if pathProp.Some? && pathProp.value != [] then pathProp.value else CurrentTab));
        signals := signals + [EditContextSet(EditingTabNotice(hint))];
      } else {
        signals := signals + [StreamError(NoTabToEdit, ChatKind)];
      }
    }

    /** `finalize_generated_file` (the generated text itself is not used). */
    method FinalizeGeneratedFile(fullContent: string)
      modifies this`context, this`signals
      ensures var st := FinalizeStep(old(context));
        context == st.context && signals == old(signals) + st.out.signals
    {
      var filename := context.filename;
      var action := context.action;
      if action == Some(CreatingFile) && filename != [] {
        signals := signals + [StreamFinished("GemNet", CreateSuccessTag + filename)];
        context := NoContext;
      } else if action == Some(CreatingFile) && filename == [] {
        signals := signals + [StreamError(FilenameLost, ChatKind)];
        context := NoContext;
      }
    }

    /** `set_selected_model`; `loadOk` says whether constructing the model
        instance succeeds. */
    method SetSelectedModel(name: string, initialLoad: bool, loadOk: bool)
      modifies this`selectedModel, this`modelLoaded
      ensures !configured && !initialLoad ==> selectedModel == old(selectedModel) && modelLoaded == old(modelLoaded)
      ensures (configured || initialLoad) && loadOk ==> selectedModel == name && modelLoaded
      ensures (configured || initialLoad) && !loadOk ==>
        !modelLoaded && selectedModel == (if initialLoad then old(selectedModel) else "")
    {
      if !configured && !initialLoad {
        return;
      }
      if loadOk {
        modelLoaded := true;
        selectedModel := name;
      } else {
        modelLoaded := false;
        if !initialLoad {
          selectedModel := "";
        }
      }
    }

    /** `update_available_models`; `listing` is the model listing, or None
        when listing fails, and `loadOk` whether loading a replacement
        model succeeds. */
    method UpdateAvailableModels(listing: Option<seq<ModelInfo>>, loadOk: bool)
      modifies this`availableModels, this`selectedModel, this`modelLoaded, this`signals
      ensures !configured || listing.None? ==>
        availableModels == [] && signals == old(signals) + [ModelsUpdated([])] &&
        selectedModel == old(selectedModel) && modelLoaded == old(modelLoaded)
      ensures configured && listing.Some? ==>
        var names := GenerativeNames(listing.value);
        availableModels == names && signals == old(signals) + [ModelsUpdated(names)] &&
        (old(selectedModel) in names ==> selectedModel == old(selectedModel) && modelLoaded == old(modelLoaded)) &&
        (old(selectedModel) !in names && names != [] && loadOk ==> selectedModel == PickDefault(names) && modelLoaded) &&
        (old(selectedModel) !in names && !(names != [] && loadOk) ==> selectedModel == "" && !modelLoaded)
    {
      if !configured || listing.None? {
        availableModels := [];
        signals := signals + [ModelsUpdated([])];
        return;
      }
      var ms := listing.value;
      availableModels := [];
      for i := 0 to |ms|
        invariant availableModels == GenerativeNames(ms[..i])
        modifies this`availableModels
      {
        assert ms[..i + 1][..i] == ms[..i];
        var mi := ms[i];
        if "generateContent" in mi.methods && StartsWith(mi.name, "models/") {
          availableModels := availableModels + [Basename(mi.name)];
        }
      }
      assert ms[..|ms|] == ms;
      if selectedModel !in availableModels {
        if availableModels != [] {
          var newDefault := PickDefault(availableModels);
          SetSelectedModel(newDefault, false, loadOk);
        } else {
          selectedModel := "";
          modelLoaded := false;
        }
      }
      signals := signals + [ModelsUpdated(availableModels)];
    }
  }
}
