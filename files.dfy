/** The part of the file system the application touches, passed in as a
    value: a map from path to entry. Opening a file and decoding its bytes are
    an oracle recorded in the entry (the error `open` raises, if any, and the
    text each encoding yields; an encoding missing from the map raises
    `UnicodeDecodeError`). */
module Files {
  import opened Text

  datatype Encoding = Utf8 | Latin1 | Cp1252

  /** The order in which both the file reader and the editor try encodings. */
  const EncodingOrder: seq<Encoding> := [Utf8, Latin1, Cp1252]

  datatype Node =
    | Dir(writable: bool)
    | File(size: nat, openError: Option<string>, decoded: map<Encoding, string>)

  type FileSystem = map<string, Node>

  predicate IsFile(fs: FileSystem, p: string) {
    p in fs && fs[p].File?
  }

  predicate IsDir(fs: FileSystem, p: string) {
    p in fs && fs[p].Dir?
  }

  /** Encoding `k` of the order is the first one that decodes `n`, giving `text`. */
  predicate FirstDecoding(n: Node, k: nat, text: string)
    requires n.File?
  {
    k < |EncodingOrder| && EncodingOrder[k] in n.decoded && n.decoded[EncodingOrder[k]] == text &&
    forall j :: 0 <= j < k ==> EncodingOrder[j] !in n.decoded
  }

  function DecodeFrom(n: Node, k: nat): Option<string>
    requires n.File?
    decreases |EncodingOrder| - k
  {
    if k >= |EncodingOrder| then None
    else if EncodingOrder[k] in n.decoded then Some(n.decoded[EncodingOrder[k]])
    else DecodeFrom(n, k + 1)
  }

  /** The text of a file read with the first encoding that works, or None
      when opening fails or no encoding decodes it. */
  function Decode(n: Node): Option<string>
    requires n.File?
  {
    if n.openError.Some? then None else DecodeFrom(n, 0)
  }

  lemma {:induction false} DecodeFromSpec(n: Node, k: nat)
    requires n.File?
    requires forall j :: 0 <= j < k && j < |EncodingOrder| ==> EncodingOrder[j] !in n.decoded
    ensures DecodeFrom(n, k).Some? <==> exists j :: 0 <= j < |EncodingOrder| && EncodingOrder[j] in n.decoded
    ensures DecodeFrom(n, k).Some? ==> exists j :: FirstDecoding(n, j, DecodeFrom(n, k).value)
    decreases |EncodingOrder| - k
  {
    if k >= |EncodingOrder| {
    } else if EncodingOrder[k] in n.decoded {
      assert FirstDecoding(n, k, DecodeFrom(n, k).value);
    } else {
      DecodeFromSpec(n, k + 1);
    }
  }

  /** Decoding succeeds exactly when the file opens and some encoding of the
      order decodes it, and then the text is that of the first such encoding. */
  lemma DecodeSpec(n: Node)
    requires n.File?
    ensures Decode(n).Some? <==>
      n.openError.None? && exists j :: 0 <= j < |EncodingOrder| && EncodingOrder[j] in n.decoded
    ensures Decode(n).Some? ==> exists j :: FirstDecoding(n, j, Decode(n).value)
  {
    if n.openError.None? {
      DecodeFromSpec(n, 0);
    }
  }

  /** Reading a file's text: the `for encoding in [...]` loop that stops at
      the first encoding that decodes and gives up when opening fails. */
  method ReadText(n: Node) returns (content: Option<string>)
    requires n.File?
    ensures content == Decode(n)
  {
    content := None;
    if n.openError.Some? {
      return;
    }
    for i := 0 to |EncodingOrder|
      invariant DecodeFrom(n, 0) == DecodeFrom(n, i)
    {
      if EncodingOrder[i] in n.decoded {
        content := Some(n.decoded[EncodingOrder[i]]);
        return;
      }
    }
  }

  /** Number of bytes of the UTF-8 encoding of a text. */
  function Utf8Size(t: string): nat {
    if t == [] then 0
    else
      var c := t[0] as int;
      (if c < 0x80 then 1 else if c < 0x800 then 2 else if c < 0x10000 then 3 else 4) + Utf8Size(t[1..])
  }

  /** What reading in text mode makes of a text: universal newlines turn
      `\r\n` and a lone `\r` into `\n`. */
  function NormalizeNewlines(s: string): (r: string)
    ensures '\r' !in r && |r| <= |s|
  {
    if s == [] then []
    else if s[0] == '\r' then "\n" + NormalizeNewlines(if |s| > 1 && s[1] == '\n' then s[2..] else s[1..])
    else [s[0]] + NormalizeNewlines(s[1..])
  }

  /** A text without `\r` reads back unchanged, so normalising twice is
      normalising once. */
  lemma {:induction false} NormalizeNewlinesPlain(s: string)
    requires '\r' !in s
    ensures NormalizeNewlines(s) == s
  {
    if s != [] {
      assert '\r' !in s[1..];
      NormalizeNewlinesPlain(s[1..]);
      assert [s[0]] + s[1..] == s;
    }
  }

  lemma NormalizeNewlinesIdempotent(s: string)
    ensures NormalizeNewlines(NormalizeNewlines(s)) == NormalizeNewlines(s)
  {
    NormalizeNewlinesPlain(NormalizeNewlines(s));
  }

  /** The entry a successful `open(path, 'w', encoding='utf-8').write(text)`
      leaves on a POSIX system: the bytes are the UTF-8 encoding of `text`
      (`\n` is written as is), and reading them back in text mode gives the
      text with its line ends normalised. */
  function WrittenFile(text: string): (n: Node)
    ensures n.File? && n.size == Utf8Size(text) && Decode(n) == Some(NormalizeNewlines(text))
  {
    File(Utf8Size(text), None, map[Utf8 := NormalizeNewlines(text)])
  }

  /** A text without carriage returns reads back exactly as written. */
  lemma WrittenFileRoundTrip(text: string)
    requires '\r' !in text
    ensures Decode(WrittenFile(text)) == Some(text)
  {
    NormalizeNewlinesPlain(text);
  }
}
