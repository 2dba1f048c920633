/** The prompt texts the controller sends to the generative model: edit
    (file or editor tab), explanation (files or editor tab), file creation and
    plain chat. Each is a pure function of its inputs; the lemmas say which
    inputs, clipped to which length, end up in the prompt. */
module Prompts {
  import opened Text

  /** A file path with the text read from it, in reading order (Python keeps
      a dict's insertion order). */
  type FileText = (string, string)

  const EditTargetLimit: nat := 20000
  const ContextFileLimit: nat := 5000
  const ExplainFileLimit: nat := 10000
  const EditorExplainLimit: nat := 15000

  const AdditionalContextNote: string :=
    "Additional context from other selected files is provided below the main content.\n"

  /** The context files kept for an edit prompt: those whose basename differs
      from the target's name. */
  function OtherFiles(target: string, files: seq<FileText>): seq<FileText> {
    if files == [] then []
    else (if Basename(files[0].0) != target then [files[0]] else []) + OtherFiles(target, files[1..])
  }

  /** A file is kept as context exactly when its basename differs from the
      target's, and nothing else is added. */
  lemma {:induction false} OtherFilesSpec(target: string, files: seq<FileText>)
    ensures forall f :: f in OtherFiles(target, files) <==> f in files && Basename(f.0) != target
  {
    if files != [] {
      OtherFilesSpec(target, files[1..]);
      assert files == [files[0]] + files[1..];
    }
  }

  const ContextOpen: string := "--- Context File: "
  const SectionMark: string := " ---\n"
  const SectionClose: string := "\n---\n"

  /** One context file as the edit prompt quotes it: its base name and its
      text clipped to 5000 characters. */
  function ContextEntry(f: FileText): string {
    ContextOpen + Basename(f.0) + SectionMark + Clip(f.1, ContextFileLimit)
  }

  function ContextSection(f: FileText): string {
    "\n" + ContextEntry(f) + SectionClose
  }

  function ContextSections(files: seq<FileText>): string {
    if files == [] then "" else ContextSection(files[0]) + ContextSections(files[1..])
  }

  lemma {:induction false} ContextSectionsContain(files: seq<FileText>, k: nat)
    requires k < |files|
    ensures Contains(ContextSections(files), ContextEntry(files[k]))
  {
    var t := ContextEntry(files[k]);
    if k == 0 {
      ContainsMiddle("\n", t, SectionClose);
      ContainsRight(ContextSection(files[0]), ContextSections(files[1..]), t);
    } else {
      ContextSectionsContain(files[1..], k - 1);
      ContainsLeft(ContextSection(files[0]), ContextSections(files[1..]), t);
    }
  }

  const EditIntro: string :=
    "You are a helpful coding assistant integrated into a development tool called GemNet.\n" +
    "The user wants to modify the code/text (currently in '"
  const EditIntroEnd: string :=
    "' if known, otherwise in the editor tab) based on the following instructions.\n"

  function EditHeader(target: string): string {
    EditIntro + target + EditIntroEnd
  }

  const EditBodyOpen: string := "--- Content to Edit ('"
  const EditBodyMark: string := "' or Current Tab) ---\n"

  /** The section holding the text to edit, clipped to 20000 characters. */
  function EditBody(target: string, content: string): string {
    EditBodyOpen + target + EditBodyMark + Clip(content, EditTargetLimit) + SectionClose
  }

  const InstructionsOpen: string := "Instructions: '"

  const EditFooter: string :=
    "\nBased ONLY on the provided content and instructions, generate the COMPLETE, modified content.\n" +
    "IMPORTANT: Output *only* the raw, modified code/text. Do not include explanations, introductions, apologies, ```markdown formatting```, or any text other than the content itself."

  /** `_build_edit_prompt`: instructions, the target content clipped to 20000
      characters, then every context file with another basename clipped to
      5000 characters. */
  function EditPrompt(target: string, content: string, instructions: string, contextFiles: seq<FileText>): string {
    var others := OtherFiles(target, contextFiles);
    EditHeader(target) +
    (if others != [] then AdditionalContextNote else "") +
    (InstructionsOpen + instructions + "'") +
    EditRest(target, content, others)
  }

  /** The parts of an edit prompt after the instructions. */
  function EditRest(target: string, content: string, others: seq<FileText>): string {
    "\n\n" + EditBody(target, content) + ContextSections(others) + EditFooter
  }

  /** The edit prompt quotes the instructions and the text to edit. */
  lemma EditPromptContents(target: string, content: string, instructions: string, contextFiles: seq<FileText>)
    ensures var p := EditPrompt(target, content, instructions, contextFiles);
      Contains(p, InstructionsOpen + instructions + "'") &&
      Contains(p, EditBody(target, content))
  {
    var others := OtherFiles(target, contextFiles);
    var head := EditHeader(target) + (if others != [] then AdditionalContextNote else "");
    var instr := InstructionsOpen + instructions + "'";
    var body := EditBody(target, content);
    var sections := ContextSections(others);
    ContainsMiddle(head, instr, EditRest(target, content, others));
    ContainsMiddle("\n\n", body, sections);
    ContainsRight("\n\n" + body + sections, EditFooter, body);
    ContainsLeft(head + instr, EditRest(target, content, others), body);
  }

  /** When there are context files besides the target, the edit prompt says
      so. */
  lemma EditPromptNote(target: string, content: string, instructions: string, contextFiles: seq<FileText>)
    requires OtherFiles(target, contextFiles) != []
    ensures Contains(EditPrompt(target, content, instructions, contextFiles), AdditionalContextNote)
  {
    var others := OtherFiles(target, contextFiles);
    var instr := InstructionsOpen + instructions + "'";
    ContainsMiddle(EditHeader(target), AdditionalContextNote, instr);
    ContainsRight(EditHeader(target) + AdditionalContextNote + instr, EditRest(target, content, others), AdditionalContextNote);
  }

  /** The edit prompt quotes every context file besides the target. */
  lemma EditPromptContext(target: string, content: string, instructions: string, contextFiles: seq<FileText>, k: nat)
    requires k < |OtherFiles(target, contextFiles)|
    ensures Contains(EditPrompt(target, content, instructions, contextFiles), ContextEntry(OtherFiles(target, contextFiles)[k]))
  {
    var others := OtherFiles(target, contextFiles);
    var t := ContextEntry(others[k]);
    var sections := ContextSections(others);
    ContextSectionsContain(others, k);
    ContainsGrow("\n\n" + EditBody(target, content), sections, EditFooter, t);
    ContainsLeft(EditHeader(target) + (if others != [] then AdditionalContextNote else "") +
      (InstructionsOpen + instructions + "'"), EditRest(target, content, others), t);
  }

  const FileOpen: string := "--- File: "
  const FileClose: string := "---\n"

  function ExplainSection(f: FileText): string {
    FileOpen + Basename(f.0) + SectionMark + Clip(f.1, ExplainFileLimit) + FileClose
  }

  function ExplainSections(files: seq<FileText>): string {
    if files == [] then "" else ExplainSection(files[0]) + ExplainSections(files[1..])
  }

  /** `request_explanation`'s prompt: every file read, clipped to 10000 characters. */
  function ExplainPrompt(files: seq<FileText>): string {
    ExplainIntro + ExplainFilesAsk + ExplainSections(files) + ExplainOutro
  }

  const ExplainFilesAsk: string :=
    "Please explain the purpose and high-level functionality of the following file(s):\n\n"

  lemma {:induction false} ExplainSectionsContain(files: seq<FileText>, k: nat)
    requires k < |files|
    ensures Contains(ExplainSections(files), ExplainSection(files[k]))
  {
    if k == 0 {
      ContainsMiddle("", ExplainSection(files[0]), ExplainSections(files[1..]));
      assert "" + ExplainSection(files[0]) + ExplainSections(files[1..]) == ExplainSections(files);
    } else {
      ExplainSectionsContain(files[1..], k - 1);
      ContainsGrow(ExplainSection(files[0]), ExplainSections(files[1..]), "", ExplainSection(files[k]));
      assert ExplainSection(files[0]) + ExplainSections(files[1..]) + "" == ExplainSections(files);
    }
  }

  /** Every file read appears in the explanation prompt under its basename,
      clipped to 10000 characters. */
  lemma ExplainPromptContents(files: seq<FileText>)
    ensures forall f :: f in files ==> Contains(ExplainPrompt(files), ExplainSection(f))
  {
    var head := ExplainIntro + ExplainFilesAsk;
    forall f | f in files ensures Contains(ExplainPrompt(files), ExplainSection(f)) {
      var k :| 0 <= k < |files| && files[k] == f;
      ExplainSectionsContain(files, k);
      ContainsGrow(head, ExplainSections(files), ExplainOutro, ExplainSection(f));
    }
  }

  const ExplainIntro: string :=
    "You are a helpful assistant integrated into a development tool called GemNet.\n"

  const ExplainOutro: string := "Provide the explanation below:"

  /** The section of `/explain_editor` holding the tab's text, clipped to
      15000 characters. */
  const EditorOpen: string := "--- Editor Content ---\n"

  function EditorBody(content: string): string {
    EditorOpen + Clip(content, EditorExplainLimit) + SectionClose
  }

  const ExplainTabAsk: string :=
    "Please explain the purpose and high-level functionality of the following code/text currently open in the editor tab "
  const SourceOpen: string := "(source file: '"
  const SourceClose: string := "')"

  /** The prompt of `/explain_editor`. */
  function EditorExplainPrompt(hint: string, content: string): string {
    ExplainIntro + ExplainTabAsk +
    (SourceOpen + hint + SourceClose) +
    (":\n\n" + EditorBody(content) + ExplainOutro)
  }

  /** The `/explain_editor` prompt names the tab's file and holds its text
      clipped to 15000 characters. */
  lemma EditorExplainPromptContents(hint: string, content: string)
    ensures Contains(EditorExplainPrompt(hint, content), EditorBody(content))
    ensures Contains(EditorExplainPrompt(hint, content), SourceOpen + hint + SourceClose)
  {
    var a := ExplainIntro + ExplainTabAsk;
    var src := SourceOpen + hint + SourceClose;
    var rest := ":\n\n" + EditorBody(content) + ExplainOutro;
    ContainsMiddle(a, src, rest);
    ContainsMiddle(":\n\n", EditorBody(content), ExplainOutro);
    ContainsLeft(a + src, rest, EditorBody(content));
  }

  const CreateIntro: string :=
    "You are a helpful file generation assistant called GemNet.\nThe user wants to create "

  const CreateMiddle: string := " with the following purpose/content described:\n"
  const NamedOpen: string := "a file named '"
  const DescriptionOpen: string := "Description: '"

  const CreateOutro: string :=
    "\n\nGenerate ONLY the raw file content based on the description.\n" +
    "IMPORTANT: Do NOT include the filename, explanations, introductions, apologies, ```markdown formatting```, or any text other than the required file content itself."

  /** The prompt sent for the description that follows `/create <name>`. */
  function CreatePrompt(filename: string, description: string): string {
    CreateIntro + (NamedOpen + filename + "'") +
    (CreateMiddle + (DescriptionOpen + description + "'") + CreateOutro)
  }

  /** The creation prompt names the file and quotes the description. */
  lemma CreatePromptContents(filename: string, description: string)
    ensures Contains(CreatePrompt(filename, description), NamedOpen + filename + "'")
    ensures Contains(CreatePrompt(filename, description), DescriptionOpen + description + "'")
  {
    var named := NamedOpen + filename + "'";
    var desc := DescriptionOpen + description + "'";
    var rest := CreateMiddle + desc + CreateOutro;
    ContainsMiddle(CreateIntro, named, rest);
    ContainsMiddle(CreateMiddle, desc, CreateOutro);
    ContainsLeft(CreateIntro + named, rest, desc);
  }

  /** The prompt of a plain chat message. */
  const ChatIntro: string := "You are a helpful assistant called GemNet. Respond concisely and helpfully.\n\n"
  const UserOpen: string := "User: "
  const AssistantCue: string := "\nAssistant:"

  function ChatPrompt(message: string): string {
    ChatIntro + (UserOpen + message + "\n") + AssistantCue
  }

  lemma ChatPromptContents(message: string)
    ensures Contains(ChatPrompt(message), UserOpen + message + "\n")
  {
    ContainsMiddle(ChatIntro, UserOpen + message + "\n", AssistantCue);
  }

  /** A request to the model, by the template it fills; `Render` gives the
      text sent. */
  datatype Prompt =
    | EditText(target: string, content: string, instructions: string, files: seq<FileText>)
    | ExplainFiles(files: seq<FileText>)
    | ExplainTab(hint: string, content: string)
    | CreateFile(filename: string, description: string)
    | ChatMessage(message: string)

  function Render(p: Prompt): string {
    match p
    case EditText(target, content, instructions, files) => EditPrompt(target, content, instructions, files)
    case ExplainFiles(files) => ExplainPrompt(files)
    case ExplainTab(hint, content) => EditorExplainPrompt(hint, content)
    case CreateFile(filename, description) => CreatePrompt(filename, description)
    case ChatMessage(message) => ChatPrompt(message)
  }
}
