/** The chat pane: the HTML line a message is shown as, and the gate between
    the input line and the `user_message_submitted` signal. */
module Chat {
  import opened Text

  const LineBreak: string := "<br>"

  /** The sender label: bold for a message, italic and bracketed for a status. */
  function SenderPrefix(sender: string, isStatus: bool): string {
    if isStatus then "<i>[" + sender + "]:</i> " else "<b>" + sender + ":</b> "
  }

  /** `message.replace('\n', '<br>')`. */
  function ReplaceNewlines(s: string): (r: string)
    ensures '\n' !in r
    ensures |r| >= |s|
  {
    if s == [] then []
    else (if s[0] == '\n' then LineBreak else [s[0]]) + ReplaceNewlines(s[1..])
  }

  /** The number of newlines in `s`. */
  function Newlines(s: string): nat {
    if s == [] then 0 else (if s[0] == '\n' then 1 else 0) + Newlines(s[1..])
  }

  /** Replacing works piece by piece. */
  lemma {:induction false} ReplaceNewlinesConcat(a: string, b: string)
    ensures ReplaceNewlines(a + b) == ReplaceNewlines(a) + ReplaceNewlines(b)
    decreases |a|
  {
    if a == [] {
      assert a + b == b;
    } else {
      var head := if a[0] == '\n' then LineBreak else [a[0]];
      assert (a + b)[0] == a[0] && (a + b)[1..] == a[1..] + b;
      ReplaceNewlinesConcat(a[1..], b);
      calc {
        ReplaceNewlines(a + b);
        head + ReplaceNewlines(a[1..] + b);
        head + (ReplaceNewlines(a[1..]) + ReplaceNewlines(b));
        (head + ReplaceNewlines(a[1..])) + ReplaceNewlines(b);
      }
    }
  }

  /** Each newline becomes the four characters of `<br>`. */
  lemma {:induction false} ReplaceNewlinesLength(s: string)
    ensures |ReplaceNewlines(s)| == |s| + 3 * Newlines(s)
    decreases |s|
  {
    if s != [] {
      ReplaceNewlinesLength(s[1..]);
    }
  }

  /** A message without newlines is shown as it is. */
  lemma {:induction false} ReplaceNewlinesNone(s: string)
    requires '\n' !in s
    ensures ReplaceNewlines(s) == s
    decreases |s|
  {
    if s != [] {
      assert '\n' !in s[1..];
      ReplaceNewlinesNone(s[1..]);
    }
  }

  /** The history line `add_message` appends. */
  function FormatMessage(sender: string, message: string, isStatus: bool): string {
    SenderPrefix(sender, isStatus) + ReplaceNewlines(message)
  }

  /** A history line is the sender label followed by the message, whose
      newlines all became `<br>`; a message without newlines is kept whole. */
  lemma FormatMessageSpec(sender: string, message: string, isStatus: bool)
    ensures var r := FormatMessage(sender, message, isStatus);
      var prefix := SenderPrefix(sender, isStatus);
      StartsWith(r, prefix) && '\n' !in r[|prefix|..] &&
      |r| == |prefix| + |message| + 3 * Newlines(message) &&
      ('\n' !in message ==> r == prefix + message)
  {
    var r := FormatMessage(sender, message, isStatus);
    var prefix := SenderPrefix(sender, isStatus);
    StartsWithConcat(prefix, ReplaceNewlines(message));
    assert r[|prefix|..] == ReplaceNewlines(message);
    ReplaceNewlinesLength(message);
    if '\n' !in message {
      ReplaceNewlinesNone(message);
    }
  }

  /** What `send_message` submits for the input `input`, if anything. */
  function Submission(input: string): (r: Option<string>)
    ensures r.Some? ==> r.value != [] && Strip(r.value) == r.value
    ensures r.None? <==> forall i :: 0 <= i < |input| ==> IsSpace(input[i])
  {
    StripSpec(input);
    StripIdempotent(input);
    var m := Strip(input);
    if m != [] then Some(m) else None
  }

  /** A submitted message is never blank and never starts or ends with
      whitespace. */
  predicate Submittable(m: string) {
    m != [] && Strip(m) == m
  }

  class ChatPane {
    /** The lines of the chat history. */
    var history: seq<string>
    /** The text of the input line. */
    var input: string
    /** Every message emitted with `user_message_submitted`, in order. */
    var submitted: seq<string>

    ghost predicate Valid()
      reads this
    {
      forall i :: 0 <= i < |submitted| ==> Submittable(submitted[i])
    }

    constructor()
      ensures Valid()
      ensures history == [] && input == [] && submitted == []
    {
      history := [];
      input := [];
      submitted := [];
    }

    /** `add_message`: one history line is appended. */
    method AddMessage(sender: string, message: string, isStatus: bool)
      modifies this`history
      ensures history == old(history) + [FormatMessage(sender, message, isStatus)]
    {
      var prefix := SenderPrefix(sender, isStatus);
      var formatted := ReplaceNewlines(message);
      history := history + [prefix + formatted];
    }

    /** Typing into the input line. */
    method SetInput(text: string)
      modifies this`input
      ensures input == text
    {
      input := text;
    }

    /** `send_message`: the stripped input is submitted and the input line
        cleared iff it is not blank; a blank input is left as it is. */
    method SendMessage()
      requires Valid()
      modifies this`input, this`submitted
      ensures Valid()
      ensures var m := Strip(old(input));
        if m != [] then submitted == old(submitted) + [m] && input == []
        else submitted == old(submitted) && input == old(input)
    {
      var message := Strip(input);
      if message != [] {
        StripIdempotent(input);
        submitted := submitted + [message];
        input := [];
      }
    }
  }
}
