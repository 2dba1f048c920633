/** The editor pane: a row of tabs, each holding a file's text, whether it is
    modified (shown by a leading `*` in the tab's title) and whether a Python
    highlighter is attached; the current tab; the flag that is set while a
    model answer streams into the current tab; and the enabled state of the
    Save and Reload buttons. */
module Editor {
  import opened Text
  import opened Files

  datatype Tab = Tab(path: Option<string>, text: string, modified: bool, title: string, highlighted: bool)

  /** A title carrying the modified marker: one `*` is put in front unless
      there is one already. */
  function Marked(title: string): string {
    if StartsWith(title, "*") then title else "*" + title
  }

  /** A title with one leading `*` removed, if it has one. */
  function Unmarked(title: string): string {
    if StartsWith(title, "*") then title[1..] else title
  }

  /** A marked title starts with `*`, marking twice is marking once, and
      removing the mark from a title that had none gives it back. */
  lemma MarkedSpec(title: string)
    ensures StartsWith(Marked(title), "*")
    ensures Marked(Marked(title)) == Marked(title)
    ensures !StartsWith(title, "*") ==> Unmarked(Marked(title)) == title && |Marked(title)| == |title| + 1
    ensures StartsWith(title, "*") ==> Marked(title) == title
  {
    StartsWithConcat("*", title);
    if !StartsWith(title, "*") {
      assert ("*" + title)[1..] == title;
    }
  }

  /** Paths that get the Python highlighter: those ending in `.py`, in any case. */
  predicate IsPython(path: string) {
    EndsWith(Lower(path), ".py")
  }

  /** A tab whose text was changed by hand or by a stream: modified, with the
      marker in its title. */
  function ModifiedTab(t: Tab): Tab {
    t.(modified := true, title := Marked(t.title))
  }

  /** The current tab once an editor stream has finished: modified, marked
      once, and highlighted when it is a Python file. */
  function FinishedTab(t: Tab): Tab {
    var m := if t.modified then t else ModifiedTab(t);
    m.(highlighted := t.highlighted || (t.path.Some? && t.path.value != [] && IsPython(t.path.value)))
  }

  /** A finished tab keeps its path and text, is modified, keeps a title that
      was already marked for a modified tab and otherwise gets one leading
      `*`; it is highlighted exactly when it was or it names a Python file. */
  lemma FinishedTabSpec(t: Tab)
    ensures var r := FinishedTab(t);
      r.path == t.path && r.text == t.text && r.modified &&
      (t.modified ==> r.title == t.title) &&
      (!t.modified ==> StartsWith(r.title, "*") && (!StartsWith(t.title, "*") ==> Unmarked(r.title) == t.title)) &&
      (r.highlighted <==> t.highlighted || (t.path.Some? && t.path.value != [] && IsPython(t.path.value)))
  {
    MarkedSpec(t.title);
  }

  /** The tab `open_files` creates for a file it has read. */
  function NewTab(path: string, text: string): Tab {
    Tab(Some(path), text, false, Basename(path), IsPython(path))
  }

  /** The first tab at or after `k` showing `path`, or -1. */
  function FindTabFrom(tabs: seq<Tab>, path: string, k: nat): (r: int)
    ensures r == -1 || (k <= r < |tabs| && tabs[r].path == Some(path))
    ensures r == -1 ==> forall j :: k <= j < |tabs| ==> tabs[j].path != Some(path)
    ensures r >= 0 ==> forall j :: k <= j < r ==> tabs[j].path != Some(path)
    decreases |tabs| - k
  {
    if k >= |tabs| then -1
    else if tabs[k].path == Some(path) then k
    else FindTabFrom(tabs, path, k + 1)
  }

  function FindTab(tabs: seq<Tab>, path: string): int {
    FindTabFrom(tabs, path, 0)
  }

  /** The tabs, the current index, the paths newly opened so far, whether a
      new tab was attempted and whether the current tab changed (the tab
      widget's `currentChanged`), while `open_files` runs. */
  datatype Opening = Opening(tabs: seq<Tab>, current: int, newPaths: seq<string>, openedNew: bool, focusMoved: bool)

  /** The state `open_files` starts from. */
  function StartOpening(tabs: seq<Tab>, current: int): Opening {
    Opening(tabs, current, [], false, false)
  }

  /** One path of `open_files`: non-files are skipped, a path already shown
      is focused, any other is read (a file that cannot be read is skipped)
      and gets a new, current tab. */
  function OpenStep(s: Opening, p: string, fs: FileSystem): Opening {
    if !IsFile(fs, p) then s
    else
      var idx := FindTab(s.tabs, p);
      if idx != -1 then s.(current := idx, focusMoved := s.focusMoved || idx != s.current)
      else match Decode(fs[p])
        case None => s.(openedNew := true)
        case Some(t) => Opening(s.tabs + [NewTab(p, t)], |s.tabs|, s.newPaths + [p], true, true)
  }

  function OpenAll(s: Opening, paths: seq<string>, fs: FileSystem): Opening
    decreases |paths|
  {
    if paths == [] then s else OpenAll(OpenStep(s, paths[0], fs), paths[1..], fs)
  }

  predicate ValidIndex(tabs: seq<Tab>, current: int) {
    (tabs == [] ==> current == -1) && (tabs != [] ==> 0 <= current < |tabs|)
  }

  predicate DistinctPaths(tabs: seq<Tab>) {
    forall i, j :: 0 <= i < j < |tabs| && tabs[i].path.Some? ==> tabs[i].path != tabs[j].path
  }

  /** The paths of the tabs that have one, in tab order. */
  function PathsOf(tabs: seq<Tab>): seq<string> {
    if tabs == [] then []
    else (if tabs[0].path.Some? then [tabs[0].path.value] else []) + PathsOf(tabs[1..])
  }

  /** One step of `open_files` either keeps the tabs or appends one new,
      unmodified tab for the path, which is then also the one path recorded
      as newly opened. By case: a path that is no file changes nothing; a
      path already shown makes its tab current; a new file that cannot be
      read only records the attempt; a new file that is read gets a tab with
      its text, which becomes current. The current index changes only when
      the step records a change of focus. */
  lemma OpenStepSpec(s: Opening, p: string, fs: FileSystem)
    ensures var s' := OpenStep(s, p, fs);
      (s'.tabs == s.tabs && s'.newPaths == s.newPaths) ||
      (exists t :: s'.tabs == s.tabs + [NewTab(p, t)] && s'.newPaths == s.newPaths + [p])
    ensures s.openedNew ==> OpenStep(s, p, fs).openedNew
    ensures var s' := OpenStep(s, p, fs);
      (s.focusMoved ==> s'.focusMoved) && (s'.current != s.current ==> s'.focusMoved)
    ensures !IsFile(fs, p) ==> OpenStep(s, p, fs) == s
    ensures IsFile(fs, p) && FindTab(s.tabs, p) != -1 ==>
      var s' := OpenStep(s, p, fs);
      s'.tabs == s.tabs && s'.newPaths == s.newPaths && s'.openedNew == s.openedNew &&
      0 <= s'.current < |s.tabs| && s'.current == FindTab(s.tabs, p) && s.tabs[s'.current].path == Some(p)
    ensures IsFile(fs, p) && FindTab(s.tabs, p) == -1 && Decode(fs[p]).None? ==>
      var s' := OpenStep(s, p, fs);
      s'.tabs == s.tabs && s'.current == s.current && s'.newPaths == s.newPaths && s'.openedNew
    ensures IsFile(fs, p) && FindTab(s.tabs, p) == -1 && Decode(fs[p]).Some? ==>
      var s' := OpenStep(s, p, fs);
      s'.tabs == s.tabs + [NewTab(p, Decode(fs[p]).value)] && s'.current == |s.tabs| &&
      s'.tabs[s'.current].path == Some(p) && s'.tabs[s'.current].text == Decode(fs[p]).value &&
      s'.newPaths == s.newPaths + [p] && s'.openedNew
  {
    var s' := OpenStep(s, p, fs);
    if IsFile(fs, p) && FindTab(s.tabs, p) == -1 && Decode(fs[p]).Some? {
      assert s'.tabs == s.tabs + [NewTab(p, Decode(fs[p]).value)];
    }
  }

  /** `open_files` only appends tabs: the tabs it had are kept and each
      added tab is an unmodified tab for one of the given paths. */
  lemma {:induction false} OpenAllGrows(s: Opening, paths: seq<string>, fs: FileSystem)
    ensures var r := OpenAll(s, paths, fs);
      |s.tabs| <= |r.tabs| && r.tabs[..|s.tabs|] == s.tabs &&
      (forall i :: |s.tabs| <= i < |r.tabs| ==> r.tabs[i].path.Some? && r.tabs[i].path.value in paths && !r.tabs[i].modified) &&
      (s.openedNew ==> r.openedNew)
    decreases |paths|
  {
    if paths != [] {
      var s' := OpenStep(s, paths[0], fs);
      OpenStepSpec(s, paths[0], fs);
      OpenAllGrows(s', paths[1..], fs);
      var r := OpenAll(s', paths[1..], fs);
      assert forall q :: q in paths[1..] ==> q in paths;
      if s'.tabs != s.tabs {
        var n := |s.tabs|;
        assert r.tabs[n] == r.tabs[..|s'.tabs|][n] == s'.tabs[n];
      }
    }
  }

  /** The paths `open_files` returns are exactly the added tabs' paths, in
      order. */
  lemma {:induction false} OpenAllNewPaths(s: Opening, paths: seq<string>, fs: FileSystem)
    ensures var r := OpenAll(s, paths, fs);
      |s.tabs| <= |r.tabs| && r.newPaths == s.newPaths + PathsOf(r.tabs[|s.tabs|..])
    decreases |paths|
  {
    if paths != [] {
      var s' := OpenStep(s, paths[0], fs);
      OpenStepSpec(s, paths[0], fs);
      OpenAllGrows(s', paths[1..], fs);
      OpenAllNewPaths(s', paths[1..], fs);
      var r := OpenAll(s', paths[1..], fs);
      var n := |s.tabs|;
      if s'.tabs == s.tabs {
        assert r.tabs[n..] == r.tabs[|s'.tabs|..];
      } else {
        var t :| s'.tabs == s.tabs + [NewTab(paths[0], t)] && s'.newPaths == s.newPaths + [paths[0]];
        assert r.tabs[n] == r.tabs[..|s'.tabs|][n] == NewTab(paths[0], t);
        assert r.tabs[n..] == [r.tabs[n]] + r.tabs[n + 1..];
        assert PathsOf(r.tabs[n..]) == [paths[0]] + PathsOf(r.tabs[n + 1..]);
      }
    }
  }

  /** Once `open_files` has moved the focus it stays recorded, and a current
      index that differs at the end was moved. */
  lemma {:induction false} OpenAllFocus(s: Opening, paths: seq<string>, fs: FileSystem)
    ensures var r := OpenAll(s, paths, fs);
      (s.focusMoved ==> r.focusMoved) && (r.current != s.current ==> r.focusMoved)
    decreases |paths|
  {
    if paths != [] {
      OpenStepSpec(s, paths[0], fs);
      OpenAllFocus(OpenStep(s, paths[0], fs), paths[1..], fs);
    }
  }

  /** `open_files` never shows one path in two tabs and keeps the current
      index within the tabs. */
  lemma {:induction false} OpenAllKeepsInvariant(s: Opening, paths: seq<string>, fs: FileSystem)
    requires DistinctPaths(s.tabs) && ValidIndex(s.tabs, s.current)
    ensures DistinctPaths(OpenAll(s, paths, fs).tabs)
    ensures ValidIndex(OpenAll(s, paths, fs).tabs, OpenAll(s, paths, fs).current)
    decreases |paths|
  {
    if paths != [] {
      var s' := OpenStep(s, paths[0], fs);
      if IsFile(fs, paths[0]) && FindTab(s.tabs, paths[0]) == -1 && Decode(fs[paths[0]]).Some? {
        assert s'.tabs == s.tabs + [NewTab(paths[0], Decode(fs[paths[0]]).value)];
        forall i, j | 0 <= i < j < |s'.tabs| && s'.tabs[i].path.Some?
          ensures s'.tabs[i].path != s'.tabs[j].path
        {
          if j == |s.tabs| {
            assert s'.tabs[i] == s.tabs[i];
          }
        }
      }
      OpenAllKeepsInvariant(s', paths[1..], fs);
    }
  }

  /** After `open_files`, every given path that is a readable file is shown
      in some tab. */
  lemma {:induction false} OpenAllCovers(s: Opening, paths: seq<string>, fs: FileSystem, p: string)
    requires p in paths && IsFile(fs, p) && Decode(fs[p]).Some?
    ensures exists i :: 0 <= i < |OpenAll(s, paths, fs).tabs| && OpenAll(s, paths, fs).tabs[i].path == Some(p)
    decreases |paths|
  {
    var s' := OpenStep(s, paths[0], fs);
    var r := OpenAll(s', paths[1..], fs);
    assert r == OpenAll(s, paths, fs);
    if p == paths[0] {
      var idx := FindTab(s.tabs, p);
      var k := if idx != -1 then idx else |s.tabs|;
      assert s'.tabs[k].path == Some(p);
      OpenAllGrows(s', paths[1..], fs);
      assert r.tabs[k] == r.tabs[..|s'.tabs|][k];
      assert r.tabs[k].path == Some(p);
    } else {
      OpenAllCovers(s', paths[1..], fs, p);
    }
  }

  class EditorPane {
    var tabs: seq<Tab>
    var current: int
    var streaming: bool
    var saveEnabled: bool
    var reloadEnabled: bool

    /** The tab widget's own invariant: a current tab exactly when there are
        tabs, and no path in two tabs. */
    ghost predicate Valid()
      reads this
    {
      ValidIndex(tabs, current) && DistinctPaths(tabs)
    }

    constructor()
      ensures Valid() && tabs == [] && current == -1 && !streaming && !saveEnabled && !reloadEnabled
    {
      tabs := [];
      current := -1;
      streaming := false;
      saveEnabled := false;
      reloadEnabled := false;
    }

    predicate HasTab()
      reads this
    {
      0 <= current < |tabs|
    }

    /** `get_current_content`: the current tab's text, if there is a tab. */
    function CurrentContent(): (r: Option<string>)
      reads this
      ensures r.Some? <==> HasTab()
      ensures HasTab() ==> r.value == tabs[current].text
    {
      if HasTab() then Some(tabs[current].text) else None
    }

    /** `get_current_path`: the current tab's path, if there is a tab and it
        has one. */
    function CurrentPath(): (r: Option<string>)
      reads this
      ensures r.Some? <==> HasTab() && tabs[current].path.Some?
      ensures r.Some? ==> r.value == tabs[current].path.value
    {
      if HasTab() then tabs[current].path else None
    }

    /** Save is enabled exactly when there is a tab, it is modified and it has a path. */
    predicate CanSave()
      reads this
    {
      HasTab() && tabs[current].modified && tabs[current].path.Some?
    }

    /** Reload is enabled exactly when there is a tab whose path names an existing file. */
    predicate CanReload(fs: FileSystem)
      reads this
    {
      HasTab() && tabs[current].path.Some? && tabs[current].path.value != [] && IsFile(fs, tabs[current].path.value)
    }

    method UpdateButtonStates(fs: FileSystem)
      modifies this`saveEnabled, this`reloadEnabled
      ensures saveEnabled == CanSave() && reloadEnabled == CanReload(fs)
    {
      saveEnabled := HasTab() && tabs[current].modified && tabs[current].path.Some?;
      reloadEnabled := HasTab() && tabs[current].path.Some? && tabs[current].path.value != [] &&
        IsFile(fs, tabs[current].path.value);
    }

    /** `open_files`: returns the paths that got a new tab, in input order.
        Each change of the current tab refreshes the buttons (the tab
        widget's `currentChanged` is connected to `update_button_states`),
        and they are refreshed once more at the end when a new tab was
        attempted. */
    method OpenFiles(paths: seq<string>, fs: FileSystem) returns (newPaths: seq<string>)
      requires Valid()
      modifies this`tabs, this`current, this`saveEnabled, this`reloadEnabled
      ensures Valid()
      ensures var r := OpenAll(StartOpening(old(tabs), old(current)), paths, fs);
        tabs == r.tabs && current == r.current && newPaths == r.newPaths &&
        (r.openedNew || r.focusMoved ==> saveEnabled == CanSave() && reloadEnabled == CanReload(fs)) &&
        (!r.openedNew && !r.focusMoved ==> saveEnabled == old(saveEnabled) && reloadEnabled == old(reloadEnabled))
      ensures current != old(current) ==> saveEnabled == CanSave() && reloadEnabled == CanReload(fs)
    {
      ghost var start := StartOpening(tabs, current);
      OpenAllKeepsInvariant(start, paths, fs);
      OpenAllFocus(start, paths, fs);
      newPaths := [];
      var openedNew := false;
      ghost var moved := false;
      for i := 0 to |paths|
        invariant OpenAll(start, paths, fs) == OpenAll(Opening(tabs, current, newPaths, openedNew, moved), paths[i..], fs)
        invariant moved ==> saveEnabled == CanSave() && reloadEnabled == CanReload(fs)
        invariant !moved ==> saveEnabled == old(saveEnabled) && reloadEnabled == old(reloadEnabled)
      {
        var p := paths[i];
        assert paths[i..] == [p] + paths[i + 1..];
        if !IsFile(fs, p) {
          continue;
        }
        var found := -1;
        for index := 0 to |tabs|
          invariant found == -1 && forall j :: 0 <= j < index ==> tabs[j].path != Some(p)
        {
          if tabs[index].path == Some(p) {
            found := index;
            break;
          }
        }
        assert found == FindTab(tabs, p);
        if found != -1 {
          if found != current {
            current := found;
            moved := true;
            UpdateButtonStates(fs);
          }
          continue;
        }
        openedNew := true;
        var content := ReadText(fs[p]);
        if content.None? {
          continue;
        }
        tabs := tabs + [NewTab(p, content.value)];
        current := |tabs| - 1;
        moved := true;
        UpdateButtonStates(fs);
        newPaths := newPaths + [p];
      }
      if openedNew {
        UpdateButtonStates(fs);
      }
    }

    /** `mark_tab_modified`, run when the text of the current tab changes:
        nothing happens while a stream writes into the tab or when the tab is
        already modified; otherwise the tab becomes modified and its title
        gets the marker (never a second one). */
    method MarkTabModified(fs: FileSystem)
      requires Valid()
      modifies this`tabs, this`saveEnabled, this`reloadEnabled
      ensures Valid()
      ensures if HasTab() && !streaming && !old(tabs[current].modified) then
          tabs == old(tabs)[current := ModifiedTab(old(tabs[current]))] &&
          saveEnabled == CanSave() && reloadEnabled == CanReload(fs)
        else unchanged(this)
    {
      if HasTab() && !streaming && !tabs[current].modified {
        var t := tabs[current];
        tabs := tabs[current := ModifiedTab(t)];
        UpdateButtonStates(fs);
      }
    }

    /** `save_current_file`: a tab with a path is written to disk when the
        write succeeds (`writeOk`); it then stops being modified and loses one
        leading `*`. Returns the file system after the attempt. */
    method SaveCurrentFile(fs: FileSystem, writeOk: bool) returns (after: FileSystem)
      requires Valid()
      modifies this`tabs, this`saveEnabled, this`reloadEnabled
      ensures Valid()
      ensures if old(HasTab()) && old(tabs[current]).path.Some? && old(tabs[current]).path.value != [] && writeOk then
          var t := old(tabs[current]);
          after == fs[t.path.value := WrittenFile(t.text)] &&
          tabs == old(tabs)[current := t.(modified := false, title := Unmarked(t.title))] &&
          saveEnabled == CanSave() && reloadEnabled == CanReload(after)
        else after == fs && unchanged(this)
    {
      after := fs;
      if current == -1 {
        return;
      }
      var t := tabs[current];
      if t.path.Some? && t.path.value != [] {
        if writeOk {
          after := fs[t.path.value := WrittenFile(t.text)];
          tabs := tabs[current := t.(modified := false, title := Unmarked(t.title))];
          UpdateButtonStates(after);
        }
      }
    }

    /** `handle_stream_started`: an editor stream with a current tab empties
        that tab and sets the streaming flag; anything else changes nothing. */
    method HandleStreamStarted(sender: string, kind: string)
      requires Valid()
      modifies this`tabs, this`streaming
      ensures Valid()
      ensures if kind == "editor" && HasTab() then
          streaming && tabs == old(tabs)[current := old(tabs[current]).(text := [])]
        else unchanged(this)
    {
      if kind != "editor" {
        return;
      }
      if HasTab() {
        streaming := true;
        tabs := tabs[current := tabs[current].(text := [])];
      }
    }

    /** `handle_stream_chunk`: while streaming, the chunk is appended to the
        current tab's text; otherwise nothing changes. */
    method HandleStreamChunk(chunk: string)
      requires Valid()
      modifies this`tabs
      ensures Valid()
      ensures if streaming && HasTab() then
          tabs == old(tabs)[current := old(tabs[current]).(text := old(tabs[current].text) + chunk)]
        else unchanged(this)
    {
      if !streaming {
        return;
      }
      if HasTab() {
        tabs := tabs[current := tabs[current].(text := tabs[current].text + chunk)];
      }
    }

    /** `handle_stream_finished`: ends an editor stream. The current tab
        becomes modified with one leading `*`, gets the highlighter if it is
        a Python file, and the buttons are refreshed. Any other finish, or one
        while not streaming, changes nothing. */
    method HandleStreamFinished(sender: string, kind: string, fs: FileSystem)
      requires Valid()
      modifies this`tabs, this`streaming, this`saveEnabled, this`reloadEnabled
      ensures Valid()
      ensures if kind == "editor" && old(streaming) then
          !streaming &&
          (HasTab() ==>
            tabs == old(tabs)[current := FinishedTab(old(tabs[current]))] &&
            saveEnabled == CanSave() && reloadEnabled == CanReload(fs)) &&
          (!HasTab() ==> tabs == old(tabs) && saveEnabled == old(saveEnabled) && reloadEnabled == old(reloadEnabled))
        else unchanged(this)
    {
      if kind != "editor" || !streaming {
        return;
      }
      streaming := false;
      if HasTab() {
        var t := tabs[current];
        if !t.modified {
          t := ModifiedTab(t);
        }
        if !t.highlighted && t.path.Some? && t.path.value != [] && IsPython(t.path.value) {
          t := t.(highlighted := true);
        }
        tabs := tabs[current := t];
        UpdateButtonStates(fs);
      }
    }

    /** `handle_stream_error`: an editor error always clears the streaming
        flag; the current tab becomes modified (with one leading `*`) only
        when the stream left text in it. */
    method HandleStreamError(message: string, kind: string, fs: FileSystem)
      requires Valid()
      modifies this`tabs, this`streaming, this`saveEnabled, this`reloadEnabled
      ensures Valid()
      ensures kind != "editor" ==> unchanged(this)
      ensures kind == "editor" ==> !streaming
      ensures kind == "editor" && HasTab() && old(tabs[current].text) != [] && !old(tabs[current].modified) ==>
        tabs == old(tabs)[current := ModifiedTab(old(tabs[current]))] &&
        saveEnabled == CanSave() && reloadEnabled == CanReload(fs)
      ensures kind == "editor" && !(HasTab() && old(tabs[current].text) != [] && !old(tabs[current].modified)) ==>
        tabs == old(tabs) && saveEnabled == old(saveEnabled) && reloadEnabled == old(reloadEnabled)
    {
      if kind != "editor" {
        return;
      }
      streaming := false;
      if HasTab() && tabs[current].text != [] && !tabs[current].modified {
        var t := tabs[current];
        tabs := tabs[current := ModifiedTab(t)];
        UpdateButtonStates(fs);
      }
    }
  }
}
