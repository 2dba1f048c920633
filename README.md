# GemNet core, modelled in Dafny

GemNet is a desktop assistant with a file pane, a tabbed editor and a chat
pane. It is backed by a generative model that answers in streamed chunks.
This project models the logic that decides what each chat message means and
where the streamed answer goes:

- **Controller** (`controller.dfy`; prompts in `prompts.dfy`, file reading in
  `readfiles.dfy`, the stream in `streaming.dfy`). The class
  `GeminiController` holds one context record. The record says whether the
  next chat message is:
  - edit instructions for files,
  - edit instructions for the current editor tab,
  - the description of a file to create,
  - or nothing special.

  `process_user_chat` either consumes a message against that context or
  parses it as one of the commands `/create`, `/explain`, `/edit`,
  `/explain_editor`, `/edit_editor`, or sends it as plain chat. Every
  request to the model is a `Prompt` value. Its answer is a sequence of
  `Chunk`s, optionally ended by an `ApiError`. The controller turns that
  answer into `Signal`s on an append-only log: started, chunks, then exactly
  one finished or error.
- **Router** (`router.dfy`). The class `MainWindow` routes those signals:
  - to the editor;
  - to the chat, which is recorded as a log of `ChatEvent`s;
  - to the file-creation buffer.

  It clears the controller's context, and it saves a generated file under
  a sanitised, collision-free name. As written, several of these handlers
  raise before they clear the context. The model follows the intended
  handlers, as "## Left out" explains.
- **Editor** (`editor.dfy`). The class `EditorPane` holds:
  - tabs that carry a path, a text, a modified flag and a title with a
    `*` marker;
  - the streaming flag;
  - the save and reload button states.
- **Highlighter** (`highlighter.dfy`). This is the block-state machine
  that carries triple-quoted strings from one line to the next.
- **Chat pane** (`chat.dfy`). It formats history lines, and it gates
  input submission.
- **Shared text and file pieces** (`text.dfy` and `files.dfy`):
  - Python's `str.strip`, `split`, `find`, `os.path.basename` and
    `os.path.join`, as functions on `string`;
  - the file system, as a map from path to a node that records a size, an
    open error and the text each encoding decodes to.

The file system (including whether a directory is writable), the model's
answer, the file pane's directory, the current directory and whether a write
succeeds are all parameters. Nothing is read from the outside world.

`_stream_gemini_api` streams synchronously; there is no worker thread,
cancellation or session id.

## Model

| member | source | states |
|---|---|---|
| Text.StripSpec | gemini_controller.py:357-359 | `strip` keeps one contiguous piece of the input that neither starts nor ends with whitespace. All it drops is whitespace. The result is empty iff the input is all whitespace. |
| Text.StripIdempotent | chat_pane.py:43 | Stripping a stripped string changes nothing. |
| Text.TokenEndSpec | gemini_controller.py:357 | The first token is the leading run of non-whitespace characters. |
| Text.Lower | gemini_controller.py:358 | Lower-casing keeps the length. |
| Text.Find | syntax_highlighter.py:82-86 | The search result is -1 iff the pattern does not occur at or after the offset. Otherwise it is the first occurrence there. |
| Text.Basename | gemini_controller.py:261 | A basename contains no `/`. `BasenameSuffix` and `BasenameUnique` complete the description of `os.path.basename`. |
| Text.BasenameSuffix | gemini_controller.py:261 | The basename is a suffix of the path. It is either the whole path or it follows a `/`. |
| Text.BasenameUnique | gemini_controller.py:261 | Any suffix without `/` that is the whole path or follows a `/` is the basename. So the basename is exactly the text after the last `/`. |
| Text.JoinBasename | gemini_controller.py:388 | Joining a directory and a name never changes the basename of the name. |
| Text.Clip | gemini_controller.py:287-288 | Content within the limit is kept whole. Longer content is cut at the limit and followed by the truncation marker. |
| Text.FilterMembers | gemini_controller.py:369 | A character survives filtering iff it was in the input and is accepted. |
| Text.DecimalRoundTrip | main.py:404 | Parsing the decimal text of a counter gives the counter back. |
| Text.DecimalInjective | main.py:404 | Different counters have different decimal texts. |
| Files.DecodeSpec | gemini_controller.py:128-137 | Reading succeeds iff the file opens and at least one of utf-8, latin-1, cp1252 decodes it. The text is then that of the first encoding, in that order, that decodes it. |
| Files.ReadText | gemini_controller.py:128-133 | The loop over the encodings returns what the decoding order prescribes. |
| Files.WrittenFile | editor_pane.py:150-160 | Writing a text leaves a file whose size is the text's UTF-8 length. Reading it back in text mode gives the text with `\r\n` and `\r` turned into `\n`. |
| Files.NormalizeNewlines | editor_pane.py:100 | Text-mode reading leaves no `\r` and never lengthens the text. |
| Files.NormalizeNewlinesPlain | editor_pane.py:100 | A text without `\r` is read unchanged. |
| Files.NormalizeNewlinesIdempotent | editor_pane.py:100 | Normalising twice is normalising once. |
| Files.WrittenFileRoundTrip | editor_pane.py:160-189 | A text without `\r` that is saved reads back exactly. |
| ReadFiles.ReadFiles | gemini_controller.py:116-140 | The read loop returns exactly the dictionary the reading rules prescribe. |
| ReadFiles.ReadFilesSpec | gemini_controller.py:118-138 | Every key is one of the requested paths, is a file of at most 250·1024 bytes and maps to its decoded text. Keys are distinct. The total size never exceeds 1.5·1024·1024 bytes. |
| ReadFiles.ReadFromSpec | gemini_controller.py:120-138 | The well-read invariant and the total bound hold at every step of the loop. |
| ReadFiles.PutSpec | gemini_controller.py:138 | A new key goes at the end and adds its size to the total. Re-reading a present key changes nothing. |
| ReadFiles.ReadFilesKeepsAll | gemini_controller.py:120-138 | When every path is readable, distinct and the sizes fit the total, all paths are kept, in order. |
| ReadFiles.ReadStopsAtFirstOverflow | gemini_controller.py:120-126 | Suppose the file at position `k` is within the per-file limit, and the sizes read before it plus its own exceed 1.5 MiB. Then only paths before `k` are returned, even if a later file would fit. |
| ReadFiles.StopsAt | gemini_controller.py:120-126 | The same statement from any running total and dictionary: the keys come from the dictionary or from paths before `k`. |
| ReadFiles.PutKeys | gemini_controller.py:138 | Storing a file's text adds at most its own path as a key. |
| ReadFiles.RepeatedPathOverflows | gemini_controller.py:126 | A path given seven times counts seven times toward the total. The loop stops at the seventh, so a later 10-byte file is not read. |
| Prompts.OtherFilesSpec | gemini_controller.py:280 | A context file is kept iff its basename differs from the target's. |
| Prompts.EditPromptContents | gemini_controller.py:284-289 | The edit prompt quotes the instructions and holds the target clipped to 20000 characters. |
| Prompts.EditPromptNote | gemini_controller.py:279-282 | When other files remain, the prompt announces the additional context. |
| Prompts.EditPromptContext | gemini_controller.py:292-297 | Every remaining context file appears under its basename, clipped to 5000 characters. |
| Prompts.ExplainPromptContents | gemini_controller.py:240-247 | Every file read appears under its basename, clipped to 10000 characters. |
| Prompts.EditorExplainPromptContents | gemini_controller.py:425-431 | The tab's content, clipped to 15000 characters, and its name hint appear in the prompt. |
| Prompts.CreatePromptContents | gemini_controller.py:340-344 | The create prompt quotes the file name and the description. |
| Prompts.ChatPromptContents | gemini_controller.py:459-461 | The chat prompt holds the user's message. |
| Streaming.ErrorMessageSpec | gemini_controller.py:195-223 | Every exception becomes an `Error: ` text that keeps the exception's own text, except the unsupported-location case, which has a fixed text. |
| Streaming.FirstBlock | gemini_controller.py:166-178 | This is the index of the first blocked chunk, or the count of chunks when none is blocked. |
| Streaming.StreamEventsSpec | gemini_controller.py:148-192 | With no model or no model name there is exactly one error and no start. Otherwise the events are: start first, then the text chunks before the first blocked chunk, in order, then one terminal event. That event is the block error when a chunk is blocked, else finished or the exception's error. |
| Streaming.StreamHasOneEnd | gemini_controller.py:148-223 | Every stream has exactly one terminal event, and it is the last event. A start event only ever comes first. |
| Streaming.StreamTagged | gemini_controller.py:143-223 | Every start, finish and error event carries the destination the request was made for. |
| Controller.ParseCommandSpec | gemini_controller.py:357-359 | The command is empty iff the message is blank. Otherwise the command is the lower-cased first token and the argument is the stripped rest. |
| Controller.CreateNameKept | gemini_controller.py:369 | The `/create` name keeps only alnum, `.`, `_`, `-` and space, and is stripped. |
| Controller.CreateFileNameSpec | gemini_controller.py:369-371 | The resulting name is non-empty, made of allowed characters and never a bare `.`, `_` or `-`. Sanitising it again changes nothing. |
| Controller.ValidNameFixed | gemini_controller.py:369-371 | A name that is already valid is kept. |
| Controller.DefaultNameValid | gemini_controller.py:370 | The default `gemini_generated_file.txt` is a valid name. |
| Controller.GeneratedNameValid | gemini_controller.py:371 | `gemini_generated_<c>.txt` is a valid name. |
| Controller.RequestSpec | gemini_controller.py:148-160 | A request either reports that no model is ready and sends nothing, or starts a stream for its destination and sends exactly its prompt. |
| Controller.EditReplySpec | gemini_controller.py:311-322 | With action `edit`, the context always becomes empty. With no files there is exactly one `editor` error and nothing is sent. With a readable first file, an edit stream starts with the instructions and the files read. |
| Controller.EditorEditReplySpec | gemini_controller.py:323-334 | With action `edit_editor`, the context is always cleared. An `editor` stream starts iff the editor has content and a model is ready. Without content there is exactly one `editor` error. |
| Controller.CreateReplySpec | gemini_controller.py:335-353 | With action `create` and a file name, the action becomes `creating_file`, the name is kept and a `file_create` stream starts with the description. Without a name there is one `chat` error and the context is cleared. |
| Controller.CommandFallThrough | gemini_controller.py:310-359 | With no action, or with `creating_file`, the message is parsed as a command. |
| Controller.ChatMessageSpec | gemini_controller.py:455-462 | Plain chat leaves the context alone and sends the message as a chat prompt. |
| Controller.CreateCommandSpec | gemini_controller.py:364-381 | `/create` without an argument gives the usage error and leaves the context unchanged. With an argument, the action becomes `create` with a valid sanitised name, and the waiting notice is emitted. |
| Controller.EditCommandSpec | gemini_controller.py:398-412 | `/edit` on an existing file requests it in the editor and sets the `edit` context for that one path. Otherwise the context is unchanged and there is one `chat` error: the usage text without an argument, or "Error: File '…' not found in '…'." for a missing file. |
| Controller.ExplainCommandSpec | gemini_controller.py:384-396 | `/explain` on a file that is read clears the context and sends the explain prompt. Otherwise the context is unchanged and there is exactly one `chat` error, with the source's text for each case: usage, file not found in the directory, or no file read. |
| Controller.EditorCommandsSpec | gemini_controller.py:414-453 | `/explain_editor` sends the tab's content, or reports that there is no tab, and leaves the context unchanged. `/edit_editor` with a tab sets the `edit_editor` context storing the tab's path, or "current tab" when it has none. Without a tab it reports an error. |
| Controller.ChatStepWellFormed | gemini_controller.py:305-463 | Processing a message keeps the context well formed: an edit has files, an editor edit has a path, a creation has a valid name. |
| Controller.CommandStepWellFormed | gemini_controller.py:356-463 | Every command keeps the context well formed. |
| Controller.FinalizeStepSpec | gemini_controller.py:471-493 | A `creating_file` context is finished with a `create_success:<name>` signal and cleared. Any other context is left alone. |
| Controller.GenerativeNamesSpec | gemini_controller.py:80-83 | The list holds exactly the `/`-suffixes of `models/…` names that support `generateContent`. |
| Controller.FirstFlash | gemini_controller.py:86 | This is the first index of a name containing `flash`, or -1. |
| Controller.PickDefault | gemini_controller.py:86 | The default is the first name containing `flash`, else the first name. |
| Controller.GeminiController.constructor | gemini_controller.py:38-48 | The controller starts with an empty context and empty logs. |
| Controller.GeminiController.SetContext | gemini_controller.py:465-468 | The context is replaced. |
| Controller.GeminiController.StreamGemini | gemini_controller.py:143-223 | The loop over the chunks appends exactly the events `Request` prescribes. |
| Controller.GeminiController.RequestExplanation | gemini_controller.py:232-250 | The state moves as `ExplainStep` prescribes. |
| Controller.GeminiController.RequestEdit | gemini_controller.py:253-270 | The state moves as `EditRequest` prescribes. |
| Controller.GeminiController.ProcessUserChat | gemini_controller.py:305-463 | The context and logs move as `ChatStep` prescribes for the editor's current content and path. |
| Controller.GeminiController.ContinueEdit | gemini_controller.py:311-322 | The `edit` branch. |
| Controller.GeminiController.ContinueEditorEdit | gemini_controller.py:323-334 | The `edit_editor` branch. |
| Controller.GeminiController.ContinueCreate | gemini_controller.py:335-353 | The `create` branch, including the in-place update of the action. |
| Controller.GeminiController.RunCommand | gemini_controller.py:356-462 | The command dispatch. |
| Controller.GeminiController.RunCreate | gemini_controller.py:364-381 | The `/create` branch. |
| Controller.GeminiController.RunExplain | gemini_controller.py:384-396 | The `/explain` branch. |
| Controller.GeminiController.RunEdit | gemini_controller.py:398-412 | The `/edit` branch. |
| Controller.GeminiController.RunExplainEditor | gemini_controller.py:414-436 | The `/explain_editor` branch, which leaves the context unchanged. |
| Controller.GeminiController.RunEditEditor | gemini_controller.py:438-453 | The `/edit_editor` branch. |
| Controller.GeminiController.FinalizeGeneratedFile | gemini_controller.py:471-493 | The state moves as `FinalizeStep` prescribes. |
| Controller.GeminiController.SetSelectedModel | gemini_controller.py:98-114 | Nothing changes unless the API is configured or this is the initial load. A successful load selects the name. A failed one unloads the model and clears the name, except on the initial load. |
| Controller.GeminiController.UpdateAvailableModels | gemini_controller.py:71-96 | The list becomes the generative names. A current selection that is valid is kept. Otherwise the default is loaded, or the selection becomes `""` when the list is empty or the load fails. The list is always announced. |
| Editor.MarkedSpec | editor_pane.py:140-147 | Marking a title gives it exactly one leading `*`, and marking twice is marking once. Removing the mark restores an unmarked title. |
| Editor.FindTabFrom | editor_pane.py:85-90 | This is the index of the first tab holding the path, or -1. |
| Editor.OpenStepSpec | editor_pane.py:82-131 | Opening one path, by case. A non-file changes nothing. An already-open path makes its tab current and keeps the tabs. A new file that cannot be read changes nothing but the attempt flag. A readable new file gets a new tab with its text, which becomes current, and its path is recorded. The index changes only with a recorded focus change. |
| Editor.OpenAllFocus | editor_pane.py:54-131 | A focus change during `open_files` stays recorded. A current index that differs at the end was recorded as moved. |
| Editor.OpenAllGrows | editor_pane.py:82-133 | Existing tabs are kept in place. The added tabs come from the requested paths and are unmodified. |
| Editor.OpenAllNewPaths | editor_pane.py:82-133 | The returned list is exactly the paths of the added tabs, in order. |
| Editor.OpenAllKeepsInvariant | editor_pane.py:82-133 | No path is open in two tabs, and the current index stays valid. |
| Editor.OpenAllCovers | editor_pane.py:82-133 | After opening, every readable requested file is open in some tab. |
| Editor.EditorPane.constructor | editor_pane.py:17-64 | The editor starts with no tabs, not streaming, buttons off. |
| Editor.EditorPane.CurrentContent | editor_pane.py:241-245 | There is content iff a tab is open, and it is that tab's text. |
| Editor.EditorPane.CurrentPath | editor_pane.py:247-252 | There is a path iff the current tab has one. |
| Editor.EditorPane.UpdateButtonStates | editor_pane.py:256-270 | Save is enabled iff a tab is open, modified and has a path. Reload is enabled iff the open tab's path names an existing file. |
| Editor.EditorPane.OpenFiles | editor_pane.py:79-133 | The tabs and current index become what `OpenAll` prescribes, and the result is the list of new paths. The buttons are refreshed when the focus moved or a new tab was attempted, and otherwise kept. In particular they are refreshed whenever the current tab changed. |
| Editor.EditorPane.MarkTabModified | editor_pane.py:135-148 | Outside streaming, an unmodified current tab becomes modified and gets one `*`. Otherwise nothing changes. |
| Editor.EditorPane.SaveCurrentFile | editor_pane.py:150-170 | A successful save writes the text, clears the modified flag and drops one leading `*`. Otherwise nothing changes. |
| Editor.EditorPane.HandleStreamStarted | editor_pane.py:272-294 | Only an `editor` stream with a current tab sets the flag and empties the tab. Anything else is ignored. |
| Editor.EditorPane.HandleStreamChunk | editor_pane.py:296-310 | While streaming, the chunk is appended to the tab's text. Otherwise nothing changes. |
| Editor.EditorPane.HandleStreamFinished | editor_pane.py:312-342 | An `editor` stream that was streaming clears the flag. The current tab becomes `FinishedTab` of itself and the buttons are refreshed. Otherwise this is a no-op. |
| Editor.FinishedTabSpec | editor_pane.py:320-335 | A finished tab keeps its path and text and is modified. An unmodified one gets one leading `*`, and a modified one keeps its title. It is highlighted iff it already was or it names a `.py` file. |
| Editor.EditorPane.HandleStreamError | editor_pane.py:344-365 | An `editor` error always clears the flag. It marks the tab modified only when its text is non-empty. |
| Router.StatusBarSpec | main.py:176-189 | `Error`, `Warning` and `GemNet` get no prefix, everyone else gets `[sender] `. A message with `Error:` or `API Key Error` stays up. A model-loaded message lasts 4 s. |
| Router.SafeFileNameSpec | main.py:392-395 | The saved name is non-empty, made of alnum, `.`, `_` and `-`, never starts with `.` and holds no `/`. Sanitising it again changes nothing. |
| Router.SafeFileNameSafe | main.py:392-395 | Sanitising always gives a safe name. |
| Router.SafeNameFixed | main.py:392-395 | A safe name is kept. |
| Router.DefaultNameSafe | main.py:394 | The fallback name is safe. |
| Router.LastDot | main.py:401 | This is the index of the last `.`, or -1. |
| Router.SplitExtSpec | main.py:401 | Base and extension put back together give the name. The extension is empty or one `.` followed by no other. A name that does not start with `.` keeps its first character in the base. |
| Router.NumberedInjective | main.py:404 | Different counters give different numbered paths. |
| Router.SaveNotices | main.py:383-422 | Saving only ever adds notices to the chat. |
| Router.SaveNoticesSpec | main.py:381-422 | The permission warning comes first iff the pane's directory is a non-root directory without write access, and then the file goes to the working directory. The collision warning, naming the sanitised and the used name, appears iff the sanitised name is taken. The created notice comes last iff the write succeeds. |
| Router.SavedPathUnique | main.py:396-406 | The save path is determined by the file system and the name. |
| Router.SuccessTagName | main.py:291-294 | The name after the first `:` of `create_success:<name>` is `<name>`. |
| Router.EditRequestContextSpec | main.py:207-227 | The context becomes `edit` over all the paths iff the first path gets a new tab (an existing readable file not already open). Otherwise it becomes empty. |
| Router.FinishContextSpec | main.py:291-345 | As the handler is intended (as written, the chat calls before some clears raise; see "## Left out"): a finish either keeps or clears the context. Chat and plain `file_create` always clear it. `editor` keeps it only when the action is neither `edit` nor `edit_editor`. A saved creation keeps it only when the action is not `creating_file`. |
| Router.FirstFree | main.py:400-406 | The counter loop ends at the smallest `N >= 1` whose `base_N+ext` does not exist. |
| Router.ChooseSavePath | main.py:397-406 | The save path never exists yet. It is the sanitised name when that is free, else the first free numbered name. |
| Router.MainWindow.constructor | main.py:21-51 | The window starts with an empty buffer and an empty chat log. |
| Router.MainWindow.HandleStreamStarted | main.py:254-266 | `editor` goes only to the editor. `file_create` empties the buffer and then goes to chat. `chat` goes to chat. Anything else is ignored. |
| Router.MainWindow.HandleStreamChunk | main.py:269-281 | With active destination `editor` the chunk goes only to the editor. With `file_create` it is appended to the buffer and shown in chat. Anything else goes to chat. |
| Router.MainWindow.SaveGeneratedFile | main.py:378-427 | The file is written under `SavedPath`: a path that did not exist, in the chosen directory, under the sanitised name or its first free numbered variant. The disk changes iff the write succeeds, and the chat gets exactly `SaveNotices`. |
| Router.MainWindow.FinishCreation | main.py:291-321 | A `create_success:<name>` finish saves the buffer under `SavedPath` for `<name>` iff the write succeeds, then always empties the buffer. The chat gets the save notices, plus the stream's finish only on success. The context follows `FinishContext`. |
| Router.MainWindow.HandleStreamFinished | main.py:284-345 | The finish is dispatched by kind. Each kind's full effect is stated: a success tag's save, notices and finish; the editor tab finished as `FinishedTab`; the chat and file finishes in the chat; nothing for an unknown kind. The context follows `FinishContext`. |
| Router.MainWindow.FinishStream | main.py:324-345 | Finishes the `editor`, `chat`, plain `file_create` and unknown kinds. An editor finish leaves the current tab as `FinishedTab` with refreshed buttons. Only `file_create` empties the buffer. |
| Router.MainWindow.HandleStreamError | main.py:348-374 | Every error clears the context. The buffer is emptied iff the routed destination is `file_create`, including a `create_success:` tag. Editor errors mark a current tab with text as modified, with one `*`. Chat and file errors go to the chat, and others become an error notice naming the kind. |
| Router.MainWindow.HandleEditRequest | main.py:207-227 | The context becomes `edit` over the paths only when the first path was opened in a new tab. Otherwise, or for no paths, it becomes empty. The chat is told which. |
| Router.MainWindow.HandleEditFileRequested | main.py:235-251 | The file is opened when it exists. When it is missing or gets no new tab, an error is shown and a pending `edit` context is cleared. |
| Highlighter.Highlight | syntax_highlighter.py:77-131 | The block state a line ends in is always 0, 1 or 2. |
| Highlighter.PythonHighlighter.HighlightBlock | syntax_highlighter.py:69-131 | The step-by-step state updates and `setFormat` calls give exactly the state and ranges `Highlight` prescribes. |
| Highlighter.HighlightWithinLine | syntax_highlighter.py:77-131 | Every formatted range lies inside the line. |
| Highlighter.PlainLine | syntax_highlighter.py:78-110 | Outside a string, a line without triple quotes ends in state 0 with nothing formatted. |
| Highlighter.InsideDouble | syntax_highlighter.py:97-103 | Inside a `"""` string, a line without `"""` stays in state 1 and is formatted whole. |
| Highlighter.ClosesDouble | syntax_highlighter.py:97-106 | Inside a `"""` string, a `"""` at index e formats `[0, e+3)` and gives state 0. |
| Highlighter.OpensDouble | syntax_highlighter.py:107-119 | Outside a string, an unclosed `"""` at index s gives state 1 and formats from s to the end of the line. |
| Highlighter.OpensSingle | syntax_highlighter.py:81-108 | Unless inside a `"""` string, a line with no `"""` and an unclosed `'''` ends in state 2, and `"""` is not searched. |
| Highlighter.ClosingSingleStaysInside | syntax_highlighter.py:81-131 | Inside a `'''` string, a line whose only `'''` is the closing one still ends in state 2 as written. The intended version ends in state 0. |
| Highlighter.ClosingSingleExample | syntax_highlighter.py:81-131 | The line `x'''` after a `'''` line ends in state 2 as written, and in state 0 as intended. |
| Highlighter.HighlightIntended | syntax_highlighter.py:96-131 | The intended state machine agrees with the source on every previous state but 2, and its states are 0, 1 or 2. |
| Highlighter.IntendedClosesSingle | syntax_highlighter.py:122-131 | Inside a `'''` string, the intended version ends the string at the line's first `'''`. Otherwise the whole line stays inside. |
| Highlighter.StaysInsideDouble | syntax_highlighter.py:97-103 | Once inside a `"""` string, every following line without `"""` stays in state 1. |
| Chat.ReplaceNewlines | chat_pane.py:35 | The formatted message contains no newline. |
| Chat.ReplaceNewlinesLength | chat_pane.py:35 | Each newline becomes the four characters of `<br>`. |
| Chat.ReplaceNewlinesNone | chat_pane.py:35 | A message without newlines is kept as it is. |
| Chat.ReplaceNewlinesConcat | chat_pane.py:35 | Replacement works piece by piece. |
| Chat.FormatMessageSpec | chat_pane.py:28-37 | The line is the sender label followed by the message, and no newline of the message remains. The label is `<b>sender:</b> `, or `<i>[sender]:</i> ` for a status. |
| Chat.Submission | chat_pane.py:43-44 | Something is submitted iff the input is not all whitespace, and it is the stripped input. |
| Chat.ChatPane.constructor | chat_pane.py:7-26 | The pane starts with an empty history, input and submission log. |
| Chat.ChatPane.AddMessage | chat_pane.py:28-37 | The history grows by exactly the formatted line. |
| Chat.ChatPane.SetInput | chat_pane.py:14 | Typing replaces the input text. |
| Chat.ChatPane.SendMessage | chat_pane.py:42-46 | The stripped input is emitted and the input cleared iff it is not blank. A blank input is left untouched. Every emitted message is non-blank and stripped. |

## Left out

- Status-bar messages from the controller (`status_update`), the editor's status requests, and the status-bar text of `handle_edit_request` are not modelled. Only the prefix and timeout rule of `update_status_bar` is.
- Qt signal dispatch. The controller appends its signals to a log, and the window's handlers are separate methods that take each signal's arguments. In the program the handlers run synchronously inside `emit`. The one place where the order matters is `/edit`: `handle_edit_file_requested_from_chat` runs before the controller sets the `edit` context. `HandleEditFileRequested` takes the context as it finds it.
- Calls in the window that raise. The chat pane has no `handle_stream_started/chunk/finished/error` methods, so each call to one raises `AttributeError`. `add_message` accepts only `is_status`, so each call passing `is_user` or `is_error` raises `TypeError`. The controller never defines `_active_worker`, so reading it raises `AttributeError`. In the source as written, each such call ends its handler and the steps after it never run:
  - main.py:264 (stream started): nothing follows the call, so no step is lost.
  - main.py:272 (stream chunk): the `_active_worker` read raises first, so no chunk is routed anywhere, not even to the editor.
  - main.py:300 (a `create_success:` finish after a successful save): the error is caught at 317, and the `add_message` at 319 then raises `TypeError`. The buffer was already emptied at 297, but the `creating_file` context is kept (303-305 and 320-321 are skipped). A failed write takes the `IOError` branch at 312-316, which raises nothing.
  - main.py:333 (chat finish): the context clear at 336 is skipped.
  - main.py:339 (plain `file_create` finish): the buffer and context clears at 340-341 are skipped.
  - main.py:362 and 366 (chat, file or unknown error): the buffer clear at 370 and the context clear at 374 are skipped. An editor error raises nothing.
  - main.py:202 (`handle_explain_request`): `request_explanation` at 205 is never called.
  - main.py:214 (`handle_edit_request`, open failed): the context clear at 216 is skipped.
  - main.py:241 and 246 (`handle_edit_file_requested_from_chat`, open failed or file missing): the context clears at 244 and 249 are skipped.

  The `MainWindow` members, `FinishContextSpec` and `EditRequestContextSpec` model these handlers as evidently intended. Each delivery to the chat is recorded as a `ChatEvent` on the window's chat log, with `is_error` read as not a status. The steps after it run. `HandleStreamChunk` takes the active destination as a parameter, and an absent one routes to chat.
- Nothing connects or calls `finalize_generated_file`. The controller method models it, but a `/create` stream then finishes as a plain `file_create` and its buffer is dropped.
- In `handle_stream_finished`, the `IndexError` branch cannot be reached, because `split(":", 1)` of a `create_success:` tag always has two parts. The generic `Exception` branch is not modelled. A failed write is the `IOError` branch.
- `str.isalnum` and `str.lower` are ASCII-only here (`Text.IsAlnum`, `Text.Lower`). `isspace` is Python's exact set.
- `_configure_gemini`, the API key lookup, the safety settings and `list_models` are not modelled. The listing is a parameter of `UpdateAvailableModels`.
- Decoding is an oracle on the file node: the text each encoding would give, if any.
- Files.WrittenFile: writes follow POSIX, where text mode writes `\n` as is. On Windows every `\n` would be written as `\r\n`; the size, but not the text read back, would differ.
- The editor's `reload_current_file`, `close_tab` and `request_open_files`, and the highlighter registry, are not modelled. A tab only records whether it is highlighted.
- The single-line highlighting rules (regular expressions, colours, formats) are not modelled. Only the multi-line state machine is. Ranges are `(start, length)` pairs, and indices count characters, not UTF-16 units.
- `handle_chat_message` only forwards to the controller. `handle_explain_request` is meant to forward too, after a user echo line. As written, that echo line raises, as listed above. Neither handler is modelled.
- The theme manager, the file pane widgets and the model selection dialog are not part of this model. Debug prints are dropped.

## Findings

| source | as written | input that shows it | evidently intended | confidence | as-written member | corrected member |
|---|---|---|---|---|---|---|
| syntax_highlighter.py:81-91,122-131 | With previous state 2 the opener search still runs and takes the closing `'''` for an opening one, setting state 2. The continuation step then only ever sets state 2, never 0. | Previous state 2, line `x'''`: ends in state 2, so the next line is still shown as inside the string. | A line inside a `'''` string only looks for its closing quote, as the `"""` case does, and ends in state 0 once it is found. | high (not executed) | Highlighter.ClosingSingleStaysInside | Highlighter.IntendedClosesSingle |
