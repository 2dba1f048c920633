/** `_read_files`: reading the selected files for a prompt, with a limit per
    file and a limit on the total, into an insertion-ordered dictionary from
    path to text. */
module ReadFiles {
  import opened Text
  import opened Files
  import opened Prompts

  /** 250 KiB per file. */
  const MaxFileSize: nat := 250 * 1024
  /** 1.5 MiB in total (the source writes the float `1.5*1024*1024`, which is this integer). */
  const MaxTotalSize: nat := 1572864

  /** Dictionary assignment `contents[p] = t`: an existing key keeps its place
      and takes the new value, a new key goes at the end. */
  function Put(contents: seq<FileText>, p: string, t: string): seq<FileText> {
    if contents == [] then [(p, t)]
    else if contents[0].0 == p then [(p, t)] + contents[1..]
    else [contents[0]] + Put(contents[1..], p, t)
  }

  /** Dictionary lookup `contents.get(p)`. */
  function Lookup(contents: seq<FileText>, p: string): Option<string> {
    if contents == [] then None
    else if contents[0].0 == p then Some(contents[0].1)
    else Lookup(contents[1..], p)
  }

  function Keys(contents: seq<FileText>): seq<string> {
    if contents == [] then [] else [contents[0].0] + Keys(contents[1..])
  }

  function FileSize(fs: FileSystem, p: string): nat {
    if IsFile(fs, p) then fs[p].size else 0
  }

  /** Total size on disk of the files in `contents`. */
  function SizeOf(contents: seq<FileText>, fs: FileSystem): nat {
    if contents == [] then 0 else FileSize(fs, contents[0].0) + SizeOf(contents[1..], fs)
  }

  /** The rest of the loop of `_read_files`, from running total `total` and
      dictionary `acc`: missing paths and directories are skipped, so are
      files over the per-file limit and files no encoding decodes; the first
      file that would take the total over the limit ends the loop. */
  function ReadFrom(paths: seq<string>, fs: FileSystem, total: nat, acc: seq<FileText>): seq<FileText>
    decreases |paths|
  {
    if paths == [] then acc
    else
      var p := paths[0];
      if !IsFile(fs, p) || fs[p].size > MaxFileSize then ReadFrom(paths[1..], fs, total, acc)
      else if total + fs[p].size > MaxTotalSize then acc
      else match Decode(fs[p])
        case None => ReadFrom(paths[1..], fs, total, acc)
        case Some(t) => ReadFrom(paths[1..], fs, total + fs[p].size, Put(acc, p, t))
  }

  /** The loop of `_read_files`. */
  method ReadFiles(paths: seq<string>, fs: FileSystem) returns (contents: seq<FileText>)
    ensures contents == ReadFrom(paths, fs, 0, [])
  {
    contents := [];
    var total: nat := 0;
    for i := 0 to |paths|
      invariant ReadFrom(paths, fs, 0, []) == ReadFrom(paths[i..], fs, total, contents)
    {
      var p := paths[i];
      assert paths[i..][1..] == paths[i + 1..];
      if p !in fs || !fs[p].File? {
        continue;
      }
      var size := fs[p].size;
      if size > MaxFileSize {
        continue;
      }
      if total + size > MaxTotalSize {
        break;
      }
      var content := ReadText(fs[p]);
      if content.None? {
        continue;
      }
      contents := Put(contents, p, content.value);
      total := total + size;
    }
  }

  /** Every entry is a file among `all`, within the per-file limit, with the
      text its first working encoding gives. */
  predicate WellRead(contents: seq<FileText>, all: seq<string>, fs: FileSystem) {
    forall k :: 0 <= k < |contents| ==>
      contents[k].0 in all && IsFile(fs, contents[k].0) && fs[contents[k].0].size <= MaxFileSize &&
      Decode(fs[contents[k].0]) == Some(contents[k].1)
  }

  predicate DistinctKeys(contents: seq<FileText>) {
    forall i, j :: 0 <= i < j < |contents| ==> contents[i].0 != contents[j].0
  }

  /** Putting a key already present (with the text already there) changes
      nothing; a new key is appended and adds its size. */
  lemma {:induction false} PutSpec(contents: seq<FileText>, p: string, t: string, fs: FileSystem)
    requires DistinctKeys(contents)
    ensures p !in Keys(contents) ==>
      Put(contents, p, t) == contents + [(p, t)] && SizeOf(Put(contents, p, t), fs) == SizeOf(contents, fs) + FileSize(fs, p)
    ensures p in Keys(contents) && Lookup(contents, p) == Some(t) ==> Put(contents, p, t) == contents
    ensures forall k :: 0 <= k < |contents| ==> contents[k].0 in Keys(contents)
  {
    if contents != [] {
      PutSpec(contents[1..], p, t, fs);
      assert contents == [contents[0]] + contents[1..];
      forall k | 0 <= k < |contents| ensures contents[k].0 in Keys(contents) {
        if k > 0 {
          assert contents[k].0 == contents[1..][k - 1].0;
        }
      }
      if p !in Keys(contents) {
        assert [contents[0]] + (contents[1..] + [(p, t)]) == contents + [(p, t)];
      }
    }
  }

  lemma {:induction false} WellReadLookup(contents: seq<FileText>, all: seq<string>, fs: FileSystem, p: string)
    requires WellRead(contents, all, fs) && p in Keys(contents)
    ensures IsFile(fs, p) && Lookup(contents, p) == Decode(fs[p])
  {
    if contents[0].0 != p {
      assert WellRead(contents[1..], all, fs);
      WellReadLookup(contents[1..], all, fs, p);
    }
  }

  lemma {:induction false} ReadFromSpec(paths: seq<string>, fs: FileSystem, total: nat, acc: seq<FileText>, all: seq<string>)
    requires forall p :: p in paths ==> p in all
    requires WellRead(acc, all, fs) && DistinctKeys(acc) && SizeOf(acc, fs) <= total <= MaxTotalSize
    ensures var r := ReadFrom(paths, fs, total, acc);
      WellRead(r, all, fs) && DistinctKeys(r) && SizeOf(r, fs) <= MaxTotalSize
    decreases |paths|
  {
    if paths != [] {
      var p := paths[0];
      assert forall q :: q in paths[1..] ==> q in paths;
      if !IsFile(fs, p) || fs[p].size > MaxFileSize {
        ReadFromSpec(paths[1..], fs, total, acc, all);
      } else if total + fs[p].size > MaxTotalSize {
      } else if Decode(fs[p]).None? {
        ReadFromSpec(paths[1..], fs, total, acc, all);
      } else {
        var t := Decode(fs[p]).value;
        PutKeepsWellRead(acc, p, t, all, fs);
        ReadFromSpec(paths[1..], fs, total + fs[p].size, Put(acc, p, t), all);
      }
    }
  }

  /** Putting a file's decoded text under its path keeps the dictionary well
      read, its keys distinct, and adds at most the file's size. */
  lemma PutKeepsWellRead(acc: seq<FileText>, p: string, t: string, all: seq<string>, fs: FileSystem)
    requires p in all && IsFile(fs, p) && fs[p].size <= MaxFileSize && Decode(fs[p]) == Some(t)
    requires WellRead(acc, all, fs) && DistinctKeys(acc)
    ensures var r := Put(acc, p, t);
      WellRead(r, all, fs) && DistinctKeys(r) && SizeOf(r, fs) <= SizeOf(acc, fs) + fs[p].size
  {
    PutSpec(acc, p, t, fs);
    if p in Keys(acc) {
      WellReadLookup(acc, all, fs, p);
    } else {
      AppendNewKey(acc, (p, t));
    }
  }

  /** `_read_files` returns only given paths, once each, each an existing
      file of at most 250 KiB with the text of its first working encoding,
      and the files returned total at most 1.5 MiB. */
  lemma ReadFilesSpec(paths: seq<string>, fs: FileSystem)
    ensures var r := ReadFrom(paths, fs, 0, []);
      WellRead(r, paths, fs) && DistinctKeys(r) && SizeOf(r, fs) <= MaxTotalSize
  {
    ReadFromSpec(paths, fs, 0, [], paths);
  }

  /** Sum of the sizes of the named files. */
  function SumSizes(paths: seq<string>, fs: FileSystem): nat {
    if paths == [] then 0 else FileSize(fs, paths[0]) + SumSizes(paths[1..], fs)
  }

  predicate Readable(fs: FileSystem, p: string) {
    IsFile(fs, p) && fs[p].size <= MaxFileSize && Decode(fs[p]).Some?
  }

  lemma {:induction false} ReadFromKeepsAll(paths: seq<string>, fs: FileSystem, total: nat, acc: seq<FileText>)
    requires DistinctKeys(acc)
    requires forall i, j :: 0 <= i < j < |paths| ==> paths[i] != paths[j]
    requires forall i :: 0 <= i < |paths| ==> Readable(fs, paths[i]) && paths[i] !in Keys(acc)
    requires total + SumSizes(paths, fs) <= MaxTotalSize
    ensures Keys(ReadFrom(paths, fs, total, acc)) == Keys(acc) + paths
    decreases |paths|
  {
    if paths == [] {
      assert Keys(acc) + paths == Keys(acc);
    } else {
      var p := paths[0];
      var t := Decode(fs[p]).value;
      var rest := paths[1..];
      PutSpec(acc, p, t, fs);
      AppendNewKey(acc, (p, t));
      var acc' := acc + [(p, t)];
      assert ReadFrom(paths, fs, total, acc) == ReadFrom(rest, fs, total + fs[p].size, acc');
      forall i | 0 <= i < |rest| ensures Readable(fs, rest[i]) && rest[i] !in Keys(acc') {
        assert rest[i] == paths[i + 1];
      }
      ReadFromKeepsAll(rest, fs, total + fs[p].size, acc');
      assert Keys(acc) + paths == Keys(acc') + rest;
    }
  }

  /** Appending an entry under a new key keeps the keys distinct. */
  lemma AppendNewKey(c: seq<FileText>, x: FileText)
    requires DistinctKeys(c) && x.0 !in Keys(c)
    ensures DistinctKeys(c + [x]) && Keys(c + [x]) == Keys(c) + [x.0]
  {
    KeysAppend(c, x);
    PutSpec(c, x.0, x.1, map[]);
    var c' := c + [x];
    forall i, j | 0 <= i < j < |c'| ensures c'[i].0 != c'[j].0 {
      if j == |c| {
        assert c'[i] == c[i];
      }
    }
  }

  lemma {:induction false} KeysAppend(c: seq<FileText>, x: FileText)
    ensures Keys(c + [x]) == Keys(c) + [x.0]
  {
    if c != [] {
      KeysAppend(c[1..], x);
      assert c + [x] == [c[0]] + (c[1..] + [x]);
    }
  }

  /** When the given files are distinct, readable, each within the per-file
      limit and together within the total limit, all of them are returned,
      in the given order. */
  lemma ReadFilesKeepsAll(paths: seq<string>, fs: FileSystem)
    requires forall i, j :: 0 <= i < j < |paths| ==> paths[i] != paths[j]
    requires forall i :: 0 <= i < |paths| ==> Readable(fs, paths[i])
    requires SumSizes(paths, fs) <= MaxTotalSize
    ensures Keys(ReadFrom(paths, fs, 0, [])) == paths
  {
    ReadFromKeepsAll(paths, fs, 0, []);
  }

  /** What the loop adds to its running total over `paths` when it does not
      stop: the sizes of the files it reads. */
  function CountedSize(paths: seq<string>, fs: FileSystem): nat {
    if paths == [] then 0
    else (if Readable(fs, paths[0]) then fs[paths[0]].size else 0) + CountedSize(paths[1..], fs)
  }

  /** Putting an entry adds at most its own key. */
  lemma {:induction false} PutKeys(acc: seq<FileText>, p: string, t: string)
    ensures forall q :: q in Keys(Put(acc, p, t)) ==> q in Keys(acc) || q == p
  {
    if acc != [] && acc[0].0 != p {
      PutKeys(acc[1..], p, t);
    }
  }

  lemma {:induction false} StopsAt(paths: seq<string>, fs: FileSystem, total: nat, acc: seq<FileText>, k: nat)
    requires k < |paths| && IsFile(fs, paths[k]) && fs[paths[k]].size <= MaxFileSize
    requires total + CountedSize(paths[..k], fs) + fs[paths[k]].size > MaxTotalSize
    ensures forall q :: q in Keys(ReadFrom(paths, fs, total, acc)) ==> q in Keys(acc) || q in paths[..k]
    decreases k
  {
    if k > 0 {
      var p := paths[0];
      var rest := paths[1..];
      assert paths[..k] == [p] + rest[..k - 1];
      assert rest[k - 1] == paths[k];
      assert forall q :: q in rest[..k - 1] ==> q in paths[..k];
      if !IsFile(fs, p) || fs[p].size > MaxFileSize {
        StopsAt(rest, fs, total, acc, k - 1);
      } else if total + fs[p].size > MaxTotalSize {
      } else if Decode(fs[p]).None? {
        StopsAt(rest, fs, total, acc, k - 1);
      } else {
        var t := Decode(fs[p]).value;
        PutKeys(acc, p, t);
        StopsAt(rest, fs, total + fs[p].size, Put(acc, p, t), k - 1);
      }
    }
  }

  /** The first file within the per-file limit that would take the total over
      1.5 MiB ends the reading: nothing from it or after it is returned, even
      a file that would still fit. */
  lemma ReadStopsAtFirstOverflow(paths: seq<string>, fs: FileSystem, k: nat)
    requires k < |paths| && IsFile(fs, paths[k]) && fs[paths[k]].size <= MaxFileSize
    requires CountedSize(paths[..k], fs) + fs[paths[k]].size > MaxTotalSize
    ensures forall q :: q in Keys(ReadFrom(paths, fs, 0, [])) ==> q in paths[..k]
  {
    StopsAt(paths, fs, 0, [], k);
  }

  /** The same path given twice counts twice toward the total: here a
      256000-byte file given seven times stops the loop at the seventh, so the
      10-byte file after it is not read although it would fit. */
  lemma RepeatedPathOverflows()
    ensures var big := File(256000, None, map[Utf8 := "A"]);
      var small := File(10, None, map[Utf8 := "C"]);
      var fs := map["a" := big, "c" := small];
      ReadFrom(["a", "a", "a", "a", "a", "a", "a", "c"], fs, 0, []) == [("a", "A")]
  {
    var big := File(256000, None, map[Utf8 := "A"]);
    var fs := map["a" := big, "c" := File(10, None, map[Utf8 := "C"])];
    var one := [("a", "A")];
    assert Decode(big) == Some("A");
    assert ReadFrom(["a"], fs, 1536000, one) == one;
    assert ReadFrom(["a", "a", "c"], fs, 1280000, one) == one;
    assert ReadFrom(["a", "a", "a", "a", "c"], fs, 768000, one) == one;
    assert ReadFrom(["a", "a", "a", "a", "a", "a", "c"], fs, 256000, one) == one;
  }
}
