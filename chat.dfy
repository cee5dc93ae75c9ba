/** The messages panel: a list of chat entries rendered into one scrolling
    text, with long lines of a message word-wrapped to the panel's width. */
module Chat {
  import opened GoStrings
  import opened Tea

  /** One entry of the panel. */
  datatype ChatMessage = ChatMessage(content: string, createdAt: string, isUser: bool)

  // ---------------------------------------------------------------------
  // wrapText

  /** The greedy filling of one over-long line: the text written for
      `words` and the length of its last output line (`lineLength`). */
  function WrapWords(words: seq<string>, width: int): (string, int)
    decreases |words|
  {
    if |words| == 0 then ("", 0)
    else if |words| == 1 then (words[0], |words[0]|)
    else
      var prev := WrapWords(words[..|words| - 1], width);
      var w := words[|words| - 1];
      if prev.1 + |w| + 1 > width then (prev.0 + "\n" + w, |w|)
      else (prev.0 + " " + w, prev.1 + 1 + |w|)
  }

  /** One input line: kept when it fits, otherwise refilled from its words. */
  function WrapLine(line: string, width: int): string
  {
    if |line| <= width then line else WrapWords(Fields(line), width).0
  }

  /** The `k`-th result is the `k`-th line wrapped. */
  function WrapLines(lines: seq<string>, width: int): (r: seq<string>)
    ensures |r| == |lines|
    ensures forall k :: 0 <= k < |lines| ==> r[k] == WrapLine(lines[k], width)
  {
    if |lines| == 0 then []
    else WrapLines(lines[..|lines| - 1], width) + [WrapLine(lines[|lines| - 1], width)]
  }

  /** What `wrapText(text, width)` returns. */
  function Wrap(text: string, width: int): string
  {
    Join(WrapLines(Split(text, '\n'), width), '\n')
  }

  /** `wrapText`: the input's newline-separated lines, each wrapped, joined
      again with a newline, so every input newline is kept. */
  method WrapText(text: string, width: int) returns (r: string)
    ensures r == Join(WrapLines(Split(text, '\n'), width), '\n')
  {
    var lines := Split(text, '\n');
    r := "";
    var i := 0;
    while i < |lines|
      invariant 0 <= i <= |lines|
      invariant r == Join(WrapLines(lines[..i], width), '\n')
    {
      ghost var done := WrapLines(lines[..i], width);
      if i > 0 {
        r := r + "\n";
      }
      var line := lines[i];
      var wrapped: string;
      if |line| <= width {
        wrapped := line;
      } else {
        wrapped := FillWords(Fields(line), width);
      }
      r := r + wrapped;
      WrapLinesSnoc(lines, i, width);
      if i > 0 {
        JoinSnoc(done, WrapLine(line, width), '\n');
      }
      i := i + 1;
    }
    assert lines[..i] == lines;
  }

  lemma WrapLinesSnoc(lines: seq<string>, i: nat, width: int)
    requires i < |lines|
    ensures WrapLines(lines[..i + 1], width) == WrapLines(lines[..i], width) + [WrapLine(lines[i], width)]
  {
    assert lines[..i + 1][..i] == lines[..i];
  }

  /** The word loop of `wrapText` for one over-long line. */
  method FillWords(words: seq<string>, width: int) returns (r: string)
    ensures r == WrapWords(words, width).0
  {
    r := "";
    var lineLength := 0;
    var j := 0;
    while j < |words|
      invariant 0 <= j <= |words|
      invariant r == WrapWords(words[..j], width).0
      invariant lineLength == WrapWords(words[..j], width).1
    {
      var word := words[j];
      assert words[..j + 1][..j] == words[..j];
      if j > 0 {
        if lineLength + |word| + 1 > width {
          r := r + "\n";
          lineLength := 0;
        } else {
          r := r + " ";
          lineLength := lineLength + 1;
        }
      }
      r := r + word;
      lineLength := lineLength + |word|;
      j := j + 1;
    }
    assert words[..j] == words;
  }

  /** A text whose every line fits the width comes back unchanged. */
  lemma WrapKeepsFittingText(text: string, width: int)
    requires forall k :: 0 <= k < |Split(text, '\n')| ==> |Split(text, '\n')[k]| <= width
    ensures Wrap(text, width) == text
  {
    var lines := Split(text, '\n');
    assert WrapLines(lines, width) == lines;
    JoinSplit(text, '\n');
  }

  /** The lines of a greedy fill: the last one is `lineLength` long, and each
      fits the width or is one word on its own. */
  lemma {:induction false} WrapWordsLines(words: seq<string>, width: int)
    requires forall k :: 0 <= k < |words| ==> '\n' !in words[k]
    ensures var p := Split(WrapWords(words, width).0, '\n');
            WrapWords(words, width).1 == |p[|p| - 1]|
            && forall k :: 0 <= k < |p| ==> |p[k]| <= width || p[k] in words || (words == [] && p[k] == "")
    decreases |words|
  {
    var n := |words|;
    if n == 1 {
      SplitWithoutSep(words[0], '\n');
    } else if n > 1 {
      var init := words[..n - 1];
      var w := words[n - 1];
      var prev := WrapWords(init, width);
      WrapWordsLines(init, width);
      var p := Split(prev.0, '\n');
      assert forall k :: 0 <= k < |p| ==> p[k] in init ==> p[k] in words;
      if prev.1 + |w| + 1 > width {
        assert prev.0 + "\n" + w == prev.0 + ['\n'] + w;
        SplitAppendSep(prev.0, w, '\n');
        SplitWithoutSep(w, '\n');
      } else {
        assert prev.0 + " " + w == prev.0 + (" " + w);
        assert '\n' !in " " + w;
        SplitAppend(prev.0, " " + w, '\n');
      }
    }
  }

  /** A greedy fill writes the words in order with exactly one separator,
      a space or a newline, between neighbours. */
  lemma {:induction false} WrapWordsSeparators(words: seq<string>, width: int)
    requires forall k :: 0 <= k < |words| ==> '\n' !in words[k]
    ensures ReplaceChar(WrapWords(words, width).0, '\n', " ") == Join(words, ' ')
    decreases |words|
  {
    var n := |words|;
    if n == 1 {
      ReplaceAbsent(words[0], '\n', " ");
    } else if n > 1 {
      var init := words[..n - 1];
      var w := words[n - 1];
      var prev := WrapWords(init, width);
      WrapWordsSeparators(init, width);
      var sep := if prev.1 + |w| + 1 > width then "\n" else " ";
      assert WrapWords(words, width).0 == prev.0 + sep + w;
      SeparatorStep(prev.0, sep, w);
      assert words == init + [w];
      JoinSnoc(init, w, ' ');
    }
  }

  /** One step of a fill: a space or a newline and then a word. */
  lemma SeparatorStep(p: string, sep: string, w: string)
    requires sep == "\n" || sep == " "
    requires '\n' !in w
    ensures ReplaceChar(p + sep + w, '\n', " ") == ReplaceChar(p, '\n', " ") + " " + w
  {
    ReplaceConcat(p + sep, w, '\n', " ");
    ReplaceConcat(p, sep, '\n', " ");
    ReplaceAbsent(w, '\n', " ");
    assert ReplaceChar(sep, '\n', " ") == " ";
  }

  /** Words of a line never hold a newline. */
  lemma FieldsLackNewline(line: string)
    ensures forall k :: 0 <= k < |Fields(line)| ==> '\n' !in Fields(line)[k]
  {
    FieldsAreWords(line);
  }

  /** An over-long line is cut into lines that fit the width, except a line
      holding one word longer than the width (or the empty line left by a
      line of white space only). */
  lemma WrapLineFits(line: string, width: int)
    requires |line| > width
    ensures var p := Split(WrapLine(line, width), '\n');
            forall k :: 0 <= k < |p| ==>
              |p[k]| <= width || p[k] in Fields(line) || (Fields(line) == [] && p[k] == "")
  {
    FieldsLackNewline(line);
    WrapWordsLines(Fields(line), width);
  }

  /** An over-long line keeps its words (as `strings.Fields` splits them) in
      their order, each separated from the next by one space or one newline. */
  lemma WrapLineKeepsWords(line: string, width: int)
    requires |line| > width
    ensures ReplaceChar(WrapLine(line, width), '\n', " ") == Join(Fields(line), ' ')
  {
    FieldsLackNewline(line);
    WrapWordsSeparators(Fields(line), width);
  }

  // ---------------------------------------------------------------------
  // formatMessage and updateViewportContent

  /** The header of an entry. The terminal styles are not modelled, so a
      styled text is its plain text. */
  function Header(msg: ChatMessage): string
  {
    (if msg.isUser then "You" else "AI") + msg.createdAt
  }

  /** `formatMessage` for a panel `width` wide. */
  function FormatMessage(msg: ChatMessage, width: int): string
  {
    if msg.content == "" then ""
    else Header(msg) + "\n  " + ReplaceChar(Wrap(msg.content, width - 4), '\n', "\n  ") + "\n"
  }

  /** `formatMessage`, calling the `wrapText` loop. */
  method FormatEntry(msg: ChatMessage, width: int) returns (t: string)
    ensures t == FormatMessage(msg, width)
  {
    if msg.content == "" {
      return "";
    }
    var wrapped := WrapText(msg.content, width - 4);
    t := Header(msg) + "\n  " + ReplaceChar(wrapped, '\n', "\n  ") + "\n";
  }

  /** An entry renders to nothing exactly when its content is empty. */
  lemma FormatMessageEmpty(msg: ChatMessage, width: int)
    ensures FormatMessage(msg, width) == "" <==> msg.content == ""
  {
    if msg.content != "" {
      assert |Header(msg)| >= 2;
    }
  }

  /** One entry of the viewport text: its rendering and a newline. */
  function Entry(msg: ChatMessage, width: int): string
  {
    FormatMessage(msg, width) + "\n"
  }

  /** The texts concatenated in order. */
  function Concat(parts: seq<string>): string
  {
    if |parts| == 0 then "" else Concat(parts[..|parts| - 1]) + parts[|parts| - 1]
  }

  lemma {:induction false} ConcatAppend(x: seq<string>, y: seq<string>)
    ensures Concat(x + y) == Concat(x) + Concat(y)
    decreases |y|
  {
    if |y| == 0 {
      assert x + y == x;
    } else {
      assert (x + y)[..|x + y| - 1] == x + y[..|y| - 1];
      ConcatAppend(x, y[..|y| - 1]);
    }
  }

  /** `f` applied to each element, in order. */
  function MapSeq<A, B>(s: seq<A>, f: A -> B): (r: seq<B>)
    ensures |r| == |s| && forall i :: 0 <= i < |s| ==> r[i] == f(s[i])
  {
    if |s| == 0 then [] else MapSeq(s[..|s| - 1], f) + [f(s[|s| - 1])]
  }

  lemma MapSeqAppend<A, B>(x: seq<A>, y: seq<A>, f: A -> B)
    ensures MapSeq(x + y, f) == MapSeq(x, f) + MapSeq(y, f)
  {
  }

  /** The rendering of each entry at a width. */
  function Renderer(width: int): ChatMessage -> string
  {
    msg => Entry(msg, width)
  }

  /** The viewport text: each entry's rendering followed by a newline, in
      the order of the entries. */
  function ViewportContent(msgs: seq<ChatMessage>, width: int): string
  {
    Concat(MapSeq(msgs, Renderer(width)))
  }

  /** Rendering distributes over concatenation of entry lists. */
  lemma ViewportContentConcat(a: seq<ChatMessage>, b: seq<ChatMessage>, width: int)
    ensures ViewportContent(a + b, width) == ViewportContent(a, width) + ViewportContent(b, width)
  {
    MapSeqAppend(a, b, Renderer(width));
    ConcatAppend(MapSeq(a, Renderer(width)), MapSeq(b, Renderer(width)));
  }

  /** An empty placeholder adds only its separating newline. */
  lemma EmptyEntryAddsNewline(msgs: seq<ChatMessage>, createdAt: string, isUser: bool, width: int)
    ensures ViewportContent(msgs + [ChatMessage("", createdAt, isUser)], width) == ViewportContent(msgs, width) + "\n"
  {
    var e := ChatMessage("", createdAt, isUser);
    assert Entry(e, width) == "\n";
    MapSeqAppend(msgs, [e], Renderer(width));
    ConcatAppend(MapSeq(msgs, Renderer(width)), ["\n"]);
  }

  /** One more entry adds its rendering at the end. */
  lemma ViewportContentSnoc(msgs: seq<ChatMessage>, i: nat, width: int)
    requires i < |msgs|
    ensures ViewportContent(msgs[..i + 1], width) == ViewportContent(msgs[..i], width) + Entry(msgs[i], width)
  {
    assert msgs[..i + 1] == msgs[..i] + [msgs[i]];
    MapSeqAppend(msgs[..i], [msgs[i]], Renderer(width));
    ConcatAppend(MapSeq(msgs[..i], Renderer(width)), [Entry(msgs[i], width)]);
  }

  /** The loop of `updateViewportContent`. */
  method RenderMessages(msgs: seq<ChatMessage>, width: int) returns (s: string)
    ensures s == ViewportContent(msgs, width)
  {
    s := "";
    for i := 0 to |msgs|
      invariant s == ViewportContent(msgs[..i], width)
    {
      ViewportContentSnoc(msgs, i, width);
      var entry := FormatEntry(msgs[i], width);
      s := s + entry;
      s := s + "\n";
    }
    assert msgs[..|msgs|] == msgs;
  }

  // ---------------------------------------------------------------------
  // ChatModel

  /** The command the panel answers `msg` with. */
  function Step(msg: Msg): Cmd
  {
    if msg == KeyMsg(KeyEscape) then Send(EscapeMsg) else WidgetCmd
  }

  class ChatModel {
    var messages: seq<ChatMessage>
    var width: int
    var height: int
    /** The text handed to the viewport. */
    var content: string

    ghost predicate Valid()
      reads this
    {
      content == ViewportContent(messages, width)
    }

    /** `NewChatModel`. */
    constructor (width: int, height: int)
      ensures Valid() && messages == [] && this.width == width && this.height == height
    {
      this.width := width;
      this.height := height;
      messages := [];
      content := "";
    }

    method UpdateViewportContent()
      modifies this
      ensures Valid() && messages == old(messages) && width == old(width) && height == old(height)
    {
      content := RenderMessages(messages, width);
    }

    /** Replaces only the entry at `index`. */
    method SetMessage(index: nat, msg: ChatMessage)
      requires index < |messages|
      modifies this
      ensures Valid() && messages == old(messages)[index := msg]
      ensures width == old(width) && height == old(height)
    {
      messages := messages[index := msg];
      UpdateViewportContent();
    }

    /** Appends one entry at the end. */
    method AddMessage(msg: ChatMessage)
      modifies this
      ensures Valid() && messages == old(messages) + [msg]
      ensures width == old(width) && height == old(height)
    {
      messages := messages + [msg];
      UpdateViewportContent();
    }

    /** Empties the list. */
    method ResetMessages()
      modifies this
      ensures Valid() && messages == []
      ensures width == old(width) && height == old(height)
    {
      messages := [];
      UpdateViewportContent();
    }

    /** Re-renders at a new size. */
    method SetSize(width: int, height: int)
      modifies this
      ensures Valid() && messages == old(messages) && this.width == width && this.height == height
    {
      this.width := width;
      this.height := height;
      UpdateViewportContent();
    }

    /** The panel's own handling of a message: escape asks the coordinator
        to drop focus; a new terminal size re-renders the panel at that
        size; everything else goes to the viewport. */
    method Update(msg: Msg) returns (cmd: Cmd)
      modifies this
      ensures cmd == Step(msg)
      ensures msg == KeyMsg(KeyEscape) ==> cmd == Send(EscapeMsg)
      ensures msg != KeyMsg(KeyEscape) ==> cmd == WidgetCmd
      ensures msg.WindowSizeMsg? ==>
                Valid() && messages == old(messages) && width == msg.width && height == msg.height
      ensures !msg.WindowSizeMsg? ==> unchanged(this)
    {
      if msg == KeyMsg(KeyEscape) {
        return Send(EscapeMsg);
      }
      if msg.WindowSizeMsg? {
        SetSize(msg.width, msg.height);
      }
      cmd := WidgetCmd;
    }
  }
}
