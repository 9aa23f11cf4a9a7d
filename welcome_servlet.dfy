/** The welcome-message endpoint (`WelcomeServlet`): the message file is split
    into messages at blank lines, `#` lines are comments, and a fixed fallback
    stands in when nothing could be read; each request gets one message picked
    by a random index. */
module Welcome {
  const FallbackMessage := "Welcome to Dicoogle!"

  /** What reading the message file gives: its lines, or a checked
      `IOException` (the only failure `loadMessages` catches). */
  datatype Source = Lines(lines: seq<string>) | IOError

  /** `line.startsWith("#")` */
  predicate IsComment(line: string) {
    |line| > 0 && line[0] == '#'
  }

  /** The parser's state: the messages closed so far and the one being built. */
  datatype ScanState = ScanState(messages: seq<string>, msg: string)

  /** One line of the file: comments are skipped, a blank line closes the
      current message (even an empty one), any other line is appended to it
      followed by a newline. */
  function Step(st: ScanState, line: string): ScanState {
    if IsComment(line) then st
    else if line == "" then ScanState(st.messages + [st.msg], "")
    else ScanState(st.messages, st.msg + line + "\n")
  }

  /** The parser's state after the given lines. */
  function Scan(lines: seq<string>): ScanState {
    if lines == [] then ScanState([], "") else Step(Scan(lines[..|lines| - 1]), lines[|lines| - 1])
  }

  /** The messages collected at the end of the file: the trailing message
      counts only when it is not empty. */
  function Collected(st: ScanState): seq<string> {
    if st.msg != "" then st.messages + [st.msg] else st.messages
  }

  /** The loaded messages, never empty: the fallback alone stands in when the
      file gave no message or could not be read. */
  function Messages(src: Source): (r: seq<string>)
    ensures |r| >= 1
    ensures src.IOError? ==> r == [FallbackMessage]
    ensures src.Lines? && Collected(Scan(src.lines)) != [] ==> r == Collected(Scan(src.lines))
    ensures src.Lines? && Collected(Scan(src.lines)) == [] ==> r == [FallbackMessage]
  {
    match src
    case IOError => [FallbackMessage]
    case Lines(lines) =>
      var ms := Collected(Scan(lines));
      if ms == [] then [FallbackMessage] else ms
  }

  /** `loadMessages` */
  method LoadMessages(src: Source) returns (messages: seq<string>)
    ensures messages == Messages(src)
    ensures |messages| >= 1
  {
    if src.IOError? {
      return [FallbackMessage];
    }
    var lines := src.lines;
    var ms: seq<string> := [];
    var msg := "";
    for i := 0 to |lines|
      invariant ScanState(ms, msg) == Scan(lines[..i])
    {
      assert lines[..i + 1][..i] == lines[..i];
      var line := lines[i];
      if |line| > 0 && line[0] == '#' {
        continue;
      }
      if line == "" {
        ms := ms + [msg];
        msg := "";
      } else {
        msg := msg + line + "\n";
      }
    }
    assert lines[..|lines|] == lines;
    if msg != "" {
      ms := ms + [msg];
    }
    if ms == [] {
      ms := ms + [FallbackMessage];
    }
    messages := ms;
  }

  /** The servlet, holding the messages loaded once. */
  class WelcomeServlet {
    var messages: seq<string>

    /** There is always a message to pick from. */
    predicate Valid()
      reads this
    {
      |messages| >= 1
    }

    constructor (src: Source)
      ensures messages == Messages(src)
      ensures Valid()
    {
      var loaded := LoadMessages(src);
      messages := loaded;
    }

    /** `doGet`: the message at the random index, drawn from `[0, |messages|)`,
        a range that `Valid` keeps non-empty. */
    method DoGet(pick: nat) returns (body: string)
      requires Valid() && pick < |messages|
      ensures body == messages[pick] && body in messages
    {
      body := messages[pick];
    }
  }

  // -----------------------------------------------------------------------
  // Reference definitions
  // -----------------------------------------------------------------------

  /** The lines that are not comments, in order. */
  function Uncommented(lines: seq<string>): (r: seq<string>)
    ensures |r| <= |lines|
  {
    if lines == [] then []
    else
      var last := lines[|lines| - 1];
      Uncommented(lines[..|lines| - 1]) + (if IsComment(last) then [] else [last])
  }

  /** The text the file contributes: each non-comment, non-blank line followed by a newline. */
  function Body(lines: seq<string>): string {
    if lines == [] then ""
    else
      var last := lines[|lines| - 1];
      Body(lines[..|lines| - 1]) + (if IsComment(last) || last == "" then "" else last + "\n")
  }

  /** How many blank lines the file has. */
  function Blanks(lines: seq<string>): nat {
    if lines == [] then 0
    else Blanks(lines[..|lines| - 1]) + (if lines[|lines| - 1] == "" then 1 else 0)
  }

  /** The messages glued back together. */
  function Concat(ms: seq<string>): string {
    if ms == [] then "" else Concat(ms[..|ms| - 1]) + ms[|ms| - 1]
  }

  /** A message as the parser builds it: empty, or ending in a newline. */
  predicate Terminated(m: string) {
    m == "" || m[|m| - 1] == '\n'
  }

  // -----------------------------------------------------------------------
  // Properties
  // -----------------------------------------------------------------------

  /** Nothing is lost or invented: the messages, read in order, hold exactly
      the non-comment, non-blank lines, each followed by a newline. */
  lemma {:induction false} ScanKeepsBody(lines: seq<string>)
    ensures Concat(Scan(lines).messages) + Scan(lines).msg == Body(lines)
  {
    if lines != [] {
      var init := lines[..|lines| - 1];
      var last := lines[|lines| - 1];
      ScanKeepsBody(init);
      var st := Scan(init);
      if !IsComment(last) && last == "" {
        assert (st.messages + [st.msg])[..|st.messages|] == st.messages;
      } else if !IsComment(last) {
        assert st.msg + last + "\n" == st.msg + (last + "\n");
      }
    }
  }

  lemma CollectedKeepsBody(lines: seq<string>)
    ensures Concat(Collected(Scan(lines))) == Body(lines)
  {
    ScanKeepsBody(lines);
    var st := Scan(lines);
    if st.msg != "" {
      assert (st.messages + [st.msg])[..|st.messages|] == st.messages;
    }
  }

  /** Each blank line closes exactly one message. */
  lemma {:induction false} ScanCountsBlanks(lines: seq<string>)
    ensures |Scan(lines).messages| == Blanks(lines)
  {
    if lines != [] {
      ScanCountsBlanks(lines[..|lines| - 1]);
    }
  }

  /** Every message the file gives is empty or ends in a newline. */
  lemma {:induction false} ScanTerminated(lines: seq<string>)
    ensures forall i :: 0 <= i < |Scan(lines).messages| ==> Terminated(Scan(lines).messages[i])
    ensures Terminated(Scan(lines).msg)
  {
    if lines != [] {
      ScanTerminated(lines[..|lines| - 1]);
    }
  }

  lemma CollectedTerminated(lines: seq<string>)
    ensures forall m :: m in Collected(Scan(lines)) ==> Terminated(m)
  {
    ScanTerminated(lines);
  }

  /** Comment lines never contribute: dropping them changes nothing. */
  lemma {:induction false} CommentsIgnored(lines: seq<string>)
    ensures Scan(Uncommented(lines)) == Scan(lines)
  {
    if lines != [] {
      var init := lines[..|lines| - 1];
      var last := lines[|lines| - 1];
      CommentsIgnored(init);
      if !IsComment(last) {
        var u := Uncommented(init) + [last];
        assert Uncommented(lines) == u;
        assert u[..|u| - 1] == Uncommented(init) && u[|u| - 1] == last;
        assert Scan(u) == Step(Scan(Uncommented(init)), last);
      } else {
        assert Uncommented(lines) == Uncommented(init) + [] == Uncommented(init);
        assert Scan(lines) == Step(Scan(init), last) == Scan(init);
      }
    }
  }

  /** The fallback stands in exactly when the file holds only comment lines. */
  lemma NothingCollectedIffOnlyComments(lines: seq<string>)
    ensures Collected(Scan(lines)) == [] <==> forall i :: 0 <= i < |lines| ==> IsComment(lines[i])
  {
    ScanCountsBlanks(lines);
    CollectedKeepsBody(lines);
    if forall i :: 0 <= i < |lines| ==> IsComment(lines[i]) {
      OnlyCommentsGiveNothing(lines);
    } else {
      var i :| 0 <= i < |lines| && !IsComment(lines[i]);
      SomethingCollected(lines, i);
    }
  }

  lemma {:induction false} OnlyCommentsGiveNothing(lines: seq<string>)
    requires forall i :: 0 <= i < |lines| ==> IsComment(lines[i])
    ensures Scan(lines) == ScanState([], "")
  {
    if lines != [] {
      OnlyCommentsGiveNothing(lines[..|lines| - 1]);
    }
  }

  /** A line that is not a comment leaves a closed message or a non-empty
      current one behind. */
  lemma {:induction false} SomethingCollected(lines: seq<string>, i: nat)
    requires i < |lines| && !IsComment(lines[i])
    ensures Scan(lines).messages != [] || Scan(lines).msg != ""
  {
    var init := lines[..|lines| - 1];
    if i < |lines| - 1 {
      SomethingCollected(init, i);
    }
  }

  /** The source keeps a message closed by two blank lines in a row, even
      though it is empty; a trailing message without a blank line after it is kept. */
  lemma EmptyMessageKept()
    ensures Messages(Lines(["# greeting", "Hello", "World", "", "", "Bye"])) == ["Hello\nWorld\n", "", "Bye\n"]
  {
    var ls := ["# greeting", "Hello", "World", "", "", "Bye"];
    assert ls[..1] == ["# greeting"] && ls[..2] == ls[..1] + ["Hello"];
    assert ls[..3] == ls[..2] + ["World"] && ls[..4] == ls[..3] + [""];
    assert ls[..5] == ls[..4] + [""] && ls == ls[..5] + ["Bye"];
    assert Scan(ls[..1]) == ScanState([], "");
    assert Scan(ls[..2]) == ScanState([], "Hello\n");
    assert Scan(ls[..3]) == ScanState([], "Hello\nWorld\n");
    assert Scan(ls[..4]) == ScanState(["Hello\nWorld\n"], "");
    assert Scan(ls[..5]) == ScanState(["Hello\nWorld\n", ""], "");
    assert Scan(ls) == ScanState(["Hello\nWorld\n", ""], "Bye\n");
  }

  /** A file that cannot be read gives the fallback alone, and so does an empty one. */
  lemma FallbackCases()
    ensures Messages(IOError) == [FallbackMessage]
    ensures Messages(Lines([])) == [FallbackMessage]
    ensures Messages(Lines(["#only a comment"])) == [FallbackMessage]
  {
    assert ["#only a comment"][..0] == [];
  }
}
