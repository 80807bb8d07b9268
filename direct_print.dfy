/** Sending a staged ticket image to the printer (`directPrint`, index.ts):
    the platform's print command line, the rule that decides whether the
    printer's stderr is an error, and which effects follow from the outcome
    of the spawned process. */
module DirectPrint {
  import opened Wrappers
  import opened PrinterConfig

  /** How a JavaScript number is written inside a template string. It is a
      parameter: the model does not define number-to-string conversion. */
  type Format = real -> string

  function Quote(s: string): string {
    "\"" + s + "\""
  }

  /** The command line `directPrint` hands to the shell: the Windows print
      utility on win32, CUPS `lp` everywhere else. */
  function PrintCommand(platform: string, cfg: BocaPrinterConfig, filePath: string, fmt: Format): string {
    if platform == "win32" then
      Quote(cfg.windowsPrintUtility) + " -printer " + Quote(cfg.printerName) + " -dpi " + fmt(cfg.dpi)
      + " -papersize " + Quote(fmt(cfg.width) + "x" + fmt(cfg.height)) + " " + Quote(filePath)
    else
      "lp -d " + Quote(cfg.printerName) + " -o media=" + Quote("BOCA " + fmt(cfg.width) + "x" + fmt(cfg.height) + "in")
      + " -o resolution=" + fmt(cfg.dpi) + " " + Quote(filePath)
  }

  /** The arguments the printing program should receive, one string each:
      the reference the command line is checked against. */
  function Argv(platform: string, cfg: BocaPrinterConfig, filePath: string, fmt: Format): seq<string> {
    if platform == "win32" then
      [cfg.windowsPrintUtility, "-printer", cfg.printerName, "-dpi", fmt(cfg.dpi),
       "-papersize", fmt(cfg.width) + "x" + fmt(cfg.height), filePath]
    else
      ["lp", "-d", cfg.printerName, "-o", "media=BOCA " + fmt(cfg.width) + "x" + fmt(cfg.height) + "in",
       "-o", "resolution=" + fmt(cfg.dpi), filePath]
  }

  // ---------------------------------------------------------------------
  // Shell word splitting, restricted to what the command lines use:
  // blanks separate words, and double quotes group and are removed.
  // ---------------------------------------------------------------------

  datatype Lexer = Lexer(words: seq<string>, cur: Option<string>, quoted: bool)

  function Step(l: Lexer, c: char): Lexer {
    if c == '"' then Lexer(l.words, Some(l.cur.GetOr("")), !l.quoted)
    else if c == ' ' && !l.quoted then
      (match l.cur
       case None => l
       case Some(w) => Lexer(l.words + [w], None, false))
    else Lexer(l.words, Some(l.cur.GetOr("") + [c]), l.quoted)
  }

  function Run(l: Lexer, s: string): Lexer
    decreases |s|
  {
    if s == [] then l else Run(Step(l, s[0]), s[1..])
  }

  /** The words of a finished scan; an unterminated quote is an error. */
  function Finish(l: Lexer): Option<seq<string>> {
    if l.quoted then None
    else match l.cur
      case None => Some(l.words)
      case Some(w) => Some(l.words + [w])
  }

  /** The argument vector the shell builds from a command line. */
  function ShellWords(s: string): Option<seq<string>> {
    Finish(Run(Lexer([], None, false), s))
  }

  lemma {:induction false} RunConcat(l: Lexer, a: string, b: string)
    ensures Run(l, a + b) == Run(Run(l, a), b)
    decreases |a|
  {
    if a == [] {
      assert a + b == b;
    } else {
      assert (a + b)[0] == a[0];
      assert (a + b)[1..] == a[1..] + b;
      RunConcat(Step(l, a[0]), a[1..], b);
    }
  }

  predicate NoQuote(s: string) {
    forall i :: 0 <= i < |s| ==> s[i] != '"'
  }

  predicate NoBlank(s: string) {
    forall i :: 0 <= i < |s| ==> s[i] != ' '
  }

  /** Characters other than quotes extend the current word, and so do
      blanks inside quotes. */
  lemma {:induction false} RunChars(ws: seq<string>, c: string, s: string, quoted: bool)
    requires NoQuote(s) && (quoted || NoBlank(s))
    ensures Run(Lexer(ws, Some(c), quoted), s) == Lexer(ws, Some(c + s), quoted)
    decreases |s|
  {
    if s == [] {
      assert c + s == c;
    } else {
      assert c + s == (c + [s[0]]) + s[1..];
      RunChars(ws, c + [s[0]], s[1..], quoted);
    }
  }

  /** A piece of a shell word: written bare, or between double quotes. */
  datatype Part = Bare(text: string) | Quoted(text: string)

  function RenderPart(p: Part): string {
    match p
    case Bare(s) => s
    case Quoted(s) => Quote(s)
  }

  predicate WellFormedPart(p: Part) {
    NoQuote(p.text) && (p.Quoted? || NoBlank(p.text))
  }

  /** A shell word as written, and the argument it stands for. */
  type Word = seq<Part>

  function Render(w: Word): string {
    if w == [] then "" else RenderPart(w[0]) + Render(w[1..])
  }

  function Value(w: Word): string {
    if w == [] then "" else w[0].text + Value(w[1..])
  }

  /** A word the shell does not drop: it opens with a quote or a character. */
  predicate WellFormedWord(w: Word) {
    && w != []
    && (w[0].Quoted? || w[0].text != [])
    && forall i :: 0 <= i < |w| ==> WellFormedPart(w[i])
  }

  lemma RunOne(l: Lexer, c: char)
    ensures Run(l, [c]) == Step(l, c)
  {
    assert [c][1..] == [];
  }

  lemma RunPart(ws: seq<string>, c: string, p: Part)
    requires WellFormedPart(p)
    ensures Run(Lexer(ws, Some(c), false), RenderPart(p)) == Lexer(ws, Some(c + p.text), false)
  {
    if p.Bare? {
      RunChars(ws, c, p.text, false);
    } else {
      RunQuoted(ws, Some(c), c, p.text);
    }
  }

  /** A double-quoted stretch extends the current word with its contents. */
  lemma RunQuoted(ws: seq<string>, cur: Option<string>, c: string, s: string)
    requires NoQuote(s) && c == cur.GetOr("")
    ensures Run(Lexer(ws, cur, false), Quote(s)) == Lexer(ws, Some(c + s), false)
  {
    var l := Lexer(ws, cur, false);
    var afterOpen := Lexer(ws, Some(c), true);
    var inside := Lexer(ws, Some(c + s), true);
    RunOne(l, '"');
    RunChars(ws, c, s, true);
    RunThen(l, "\"", s, afterOpen, inside);
    RunOne(inside, '"');
    RunThen(l, "\"" + s, "\"", inside, Lexer(ws, Some(c + s), false));
  }

  lemma {:induction false} RunParts(ws: seq<string>, c: string, w: Word)
    requires forall i :: 0 <= i < |w| ==> WellFormedPart(w[i])
    ensures Run(Lexer(ws, Some(c), false), Render(w)) == Lexer(ws, Some(c + Value(w)), false)
    decreases |w|
  {
    if w == [] {
      assert c + Value(w) == c;
    } else {
      var head, tail := w[0], w[1..];
      assert forall i :: 0 <= i < |tail| ==> WellFormedPart(tail[i]) by {
        forall i | 0 <= i < |tail| ensures WellFormedPart(tail[i]) {
          assert tail[i] == w[i + 1];
        }
      }
      var mid := Lexer(ws, Some(c + head.text), false);
      RunPart(ws, c, head);
      RunParts(ws, c + head.text, tail);
      RunThen(Lexer(ws, Some(c), false), RenderPart(head), Render(tail), mid,
              Lexer(ws, Some(c + head.text + Value(tail)), false));
      AppendAssoc(c, head.text, Value(tail));
    }
  }

  lemma RunThen(l: Lexer, a: string, b: string, mid: Lexer, fin: Lexer)
    requires Run(l, a) == mid && Run(mid, b) == fin
    ensures Run(l, a + b) == fin
  {
    RunConcat(l, a, b);
  }

  lemma AppendAssoc(a: string, b: string, c: string)
    ensures a + b + c == a + (b + c)
  {
  }

  /** A well-formed word read from between words becomes the current word. */
  lemma RunWord(ws: seq<string>, w: Word)
    requires WellFormedWord(w)
    ensures Run(Lexer(ws, None, false), Render(w)) == Lexer(ws, Some(Value(w)), false)
  {
    var start := Lexer(ws, None, false);
    var t := w[0].text;
    var tail := w[1..];
    assert WellFormedPart(w[0]);
    assert forall i :: 0 <= i < |tail| ==> WellFormedPart(tail[i]) by {
      forall i | 0 <= i < |tail| ensures WellFormedPart(tail[i]) {
        assert tail[i] == w[i + 1];
      }
    }
    var mid := Lexer(ws, Some(t), false);
    if w[0].Bare? {
      RunOne(start, t[0]);
      assert "" + [t[0]] == [t[0]];
      RunChars(ws, [t[0]], t[1..], false);
      RunThen(start, [t[0]], t[1..], Lexer(ws, Some([t[0]]), false), Lexer(ws, Some([t[0]] + t[1..]), false));
      assert [t[0]] + t[1..] == t;
    } else {
      RunQuoted(ws, None, "", t);
      assert "" + t == t;
    }
    RunParts(ws, t, tail);
    RunThen(start, RenderPart(w[0]), Render(tail), mid, Lexer(ws, Some(t + Value(tail)), false));
  }

  /** Words joined by single blanks. */
  function Line(words: seq<Word>): string
    requires words != []
  {
    if |words| == 1 then Render(words[0])
    else Line(words[..|words| - 1]) + " " + Render(words[|words| - 1])
  }

  function Values(words: seq<Word>): seq<string> {
    if words == [] then [] else Values(words[..|words| - 1]) + [Value(words[|words| - 1])]
  }

  lemma {:induction false} RunLine(ws: seq<string>, words: seq<Word>)
    requires words != []
    requires forall i :: 0 <= i < |words| ==> WellFormedWord(words[i])
    ensures Run(Lexer(ws, None, false), Line(words))
            == Lexer(ws + Values(words[..|words| - 1]), Some(Value(words[|words| - 1])), false)
    decreases |words|
  {
    var n := |words|;
    var start := Lexer(ws, None, false);
    if n == 1 {
      RunWord(ws, words[0]);
      assert ws + Values(words[..0]) == ws;
    } else {
      var init := words[..n - 1];
      assert forall i :: 0 <= i < |init| ==> WellFormedWord(init[i]);
      RunLine(ws, init);
      assert init[..n - 2] == words[..n - 2];
      var before := Lexer(ws + Values(words[..n - 2]), Some(Value(words[n - 2])), false);
      var ws' := ws + Values(words[..n - 2]) + [Value(words[n - 2])];
      RunOne(before, ' ');
      RunThen(start, Line(init), " ", before, Lexer(ws', None, false));
      RunWord(ws', words[n - 1]);
      RunThen(start, Line(init) + " ", Render(words[n - 1]), Lexer(ws', None, false),
              Lexer(ws', Some(Value(words[n - 1])), false));
      assert words[..n - 1][..n - 2] == words[..n - 2];
      assert ws' == ws + Values(words[..n - 1]);
    }
  }

  /** Line and its words: the shell splits a line of well-formed words back
      into their values. */
  lemma LineSplitsIntoValues(words: seq<Word>)
    requires words != []
    requires forall i :: 0 <= i < |words| ==> WellFormedWord(words[i])
    ensures ShellWords(Line(words)) == Some(Values(words))
  {
    var n := |words|;
    var prefix := Values(words[..n - 1]);
    RunLine([], words);
    assert [] + prefix == prefix;
    var l := Run(Lexer([], None, false), Line(words));
    assert l == Lexer(prefix, Some(Value(words[n - 1])), false);
    assert Finish(l) == Some(prefix + [Value(words[n - 1])]);
  }

  /** The print command line as shell words. */
  function CommandWords(platform: string, cfg: BocaPrinterConfig, filePath: string, fmt: Format): seq<Word> {
    if platform == "win32" then
      [[Quoted(cfg.windowsPrintUtility)], [Bare("-printer")], [Quoted(cfg.printerName)], [Bare("-dpi")],
       [Bare(fmt(cfg.dpi))], [Bare("-papersize")], [Quoted(fmt(cfg.width) + "x" + fmt(cfg.height))],
       [Quoted(filePath)]]
    else
      [[Bare("lp")], [Bare("-d")], [Quoted(cfg.printerName)], [Bare("-o")],
       [Bare("media="), Quoted("BOCA " + fmt(cfg.width) + "x" + fmt(cfg.height) + "in")], [Bare("-o")],
       [Bare("resolution=" + fmt(cfg.dpi))], [Quoted(filePath)]]
  }

  lemma CommandIsLine(platform: string, cfg: BocaPrinterConfig, filePath: string, fmt: Format)
    ensures PrintCommand(platform, cfg, filePath, fmt) == Line(CommandWords(platform, cfg, filePath, fmt))
  {
    var w := CommandWords(platform, cfg, filePath, fmt);
    LineOfEight(w);
    forall k | 0 <= k < 8 {
      RenderSmall(w[k]);
    }
    if platform == "win32" {
      var wh := fmt(cfg.width) + "x" + fmt(cfg.height);
      WinCommandJoin(Quote(cfg.windowsPrintUtility), Quote(cfg.printerName), fmt(cfg.dpi), Quote(wh), Quote(filePath));
    } else {
      var media := "BOCA " + fmt(cfg.width) + "x" + fmt(cfg.height) + "in";
      assert Render(w[4]) == "media=" + Quote(media);
      LpCommandJoin(Quote(cfg.printerName), Quote(media), fmt(cfg.dpi), Quote(filePath));
    }
  }

  lemma WinCommandJoin(u: string, n: string, d: string, p: string, f: string)
    ensures u + " -printer " + n + " -dpi " + d + " -papersize " + p + " " + f
            == u + " " + "-printer" + " " + n + " " + "-dpi" + " " + d + " " + "-papersize" + " " + p + " " + f
  {
    assert u + " -printer " == u + " " + "-printer" + " ";
    assert u + " -printer " + n + " -dpi " == u + " -printer " + n + " " + "-dpi" + " ";
    var x := u + " -printer " + n + " -dpi " + d;
    assert x + " -papersize " == x + " " + "-papersize" + " ";
  }

  lemma LpCommandJoin(n: string, m: string, d: string, f: string)
    ensures "lp -d " + n + " -o media=" + m + " -o resolution=" + d + " " + f
            == "lp" + " " + "-d" + " " + n + " " + "-o" + " " + ("media=" + m) + " " + "-o" + " "
               + ("resolution=" + d) + " " + f
  {
    assert "lp -d " == "lp" + " " + "-d" + " ";
    var x := "lp -d " + n;
    assert " -o media=" == " " + "-o" + " " + "media=";
    JoinFlag(x, "-o", "media=", m);
    var y := x + " -o media=" + m;
    assert " -o resolution=" == " " + "-o" + " " + "resolution=";
    JoinFlag(y, "-o", "resolution=", d);
  }

  /** A flag followed by a `key=value` word, written as one literal. */
  lemma JoinFlag(x: string, flag: string, key: string, v: string)
    ensures x + (" " + flag + " " + key) + v == x + " " + flag + " " + (key + v)
  {
  }

  lemma LineOfEight(w: seq<Word>)
    requires |w| == 8
    ensures Line(w) == Render(w[0]) + " " + Render(w[1]) + " " + Render(w[2]) + " " + Render(w[3]) + " "
                       + Render(w[4]) + " " + Render(w[5]) + " " + Render(w[6]) + " " + Render(w[7])
  {
    assert w[..8] == w;
    assert Line(w[..1]) == Render(w[0]);
    assert Line(w[..2]) == Line(w[..1]) + " " + Render(w[1]) by { assert w[..2][..1] == w[..1]; }
    assert Line(w[..3]) == Line(w[..2]) + " " + Render(w[2]) by { assert w[..3][..2] == w[..2]; }
    assert Line(w[..4]) == Line(w[..3]) + " " + Render(w[3]) by { assert w[..4][..3] == w[..3]; }
    assert Line(w[..5]) == Line(w[..4]) + " " + Render(w[4]) by { assert w[..5][..4] == w[..4]; }
    assert Line(w[..6]) == Line(w[..5]) + " " + Render(w[5]) by { assert w[..6][..5] == w[..5]; }
    assert Line(w[..7]) == Line(w[..6]) + " " + Render(w[6]) by { assert w[..7][..6] == w[..6]; }
  }

  /** Render unfolded for the one- and two-part words the commands use. */
  function RenderWord(w: Word): string {
    if |w| == 1 then RenderPart(w[0])
    else if |w| == 2 then RenderPart(w[0]) + RenderPart(w[1])
    else Render(w)
  }

  lemma RenderSmall(w: Word)
    ensures Render(w) == RenderWord(w)
  {
    if |w| == 1 {
      assert Render(w[1..]) == "";
      assert RenderPart(w[0]) + "" == RenderPart(w[0]);
    } else if |w| == 2 {
      assert Render(w[1..]) == RenderPart(w[1]) + Render(w[2..]);
      assert Render(w[2..]) == "";
      assert RenderPart(w[1]) + "" == RenderPart(w[1]);
    }
  }

  function ValueWord(w: Word): string {
    if |w| == 1 then w[0].text
    else if |w| == 2 then w[0].text + w[1].text
    else Value(w)
  }

  lemma ValueSmall(w: Word)
    ensures Value(w) == ValueWord(w)
  {
    if |w| == 1 {
      assert Value(w[1..]) == "";
      assert w[0].text + "" == w[0].text;
    } else if |w| == 2 {
      assert Value(w[1..]) == w[1].text + Value(w[2..]);
      assert Value(w[2..]) == "";
      assert w[1].text + "" == w[1].text;
    }
  }

  lemma ValuesOfEight(w: seq<Word>)
    requires |w| == 8
    ensures Values(w) == [ValueWord(w[0]), ValueWord(w[1]), ValueWord(w[2]), ValueWord(w[3]),
                          ValueWord(w[4]), ValueWord(w[5]), ValueWord(w[6]), ValueWord(w[7])]
  {
    ValueSmall(w[0]); ValueSmall(w[1]); ValueSmall(w[2]); ValueSmall(w[3]);
    ValueSmall(w[4]); ValueSmall(w[5]); ValueSmall(w[6]); ValueSmall(w[7]);
    assert w[..8] == w;
    assert Values(w[..0]) == [];
    assert Values(w[..1]) == [Value(w[0])] by { assert w[..1][..0] == w[..0]; }
    assert Values(w[..2]) == Values(w[..1]) + [Value(w[1])] by { assert w[..2][..1] == w[..1]; }
    assert Values(w[..3]) == Values(w[..2]) + [Value(w[2])] by { assert w[..3][..2] == w[..2]; }
    assert Values(w[..4]) == Values(w[..3]) + [Value(w[3])] by { assert w[..4][..3] == w[..3]; }
    assert Values(w[..5]) == Values(w[..4]) + [Value(w[4])] by { assert w[..5][..4] == w[..4]; }
    assert Values(w[..6]) == Values(w[..5]) + [Value(w[5])] by { assert w[..6][..5] == w[..5]; }
    assert Values(w[..7]) == Values(w[..6]) + [Value(w[6])] by { assert w[..7][..6] == w[..6]; }
    assert Values(w) == Values(w[..7]) + [Value(w[7])] by { assert w[..7] == w[..|w| - 1]; }
  }

  lemma NoQuoteConcat(a: string, b: string)
    requires NoQuote(a) && NoQuote(b)
    ensures NoQuote(a + b)
  {
    forall i | 0 <= i < |a + b|
      ensures (a + b)[i] != '"'
    {
      if i >= |a| {
        assert (a + b)[i] == b[i - |a|];
      }
    }
  }

  /** The conditions under which each word of the command line stays one
      argument: no value holds a double quote and the bare resolution is one
      non-empty token. */
  predicate ShellSafe(cfg: BocaPrinterConfig, filePath: string, fmt: Format) {
    && NoQuote(cfg.printerName) && NoQuote(cfg.windowsPrintUtility) && NoQuote(filePath)
    && NoQuote(fmt(cfg.width)) && NoQuote(fmt(cfg.height))
    && NoQuote(fmt(cfg.dpi)) && NoBlank(fmt(cfg.dpi)) && fmt(cfg.dpi) != ""
  }

  lemma CommandWordsWellFormed(platform: string, cfg: BocaPrinterConfig, filePath: string, fmt: Format)
    requires ShellSafe(cfg, filePath, fmt)
    ensures var w := CommandWords(platform, cfg, filePath, fmt);
            forall i :: 0 <= i < |w| ==> WellFormedWord(w[i])
  {
    if platform == "win32" {
      WinWordsWellFormed(cfg, filePath, fmt);
    } else {
      assert CommandWords(platform, cfg, filePath, fmt) == CommandWords("lp", cfg, filePath, fmt);
      LpWordsWellFormed(cfg, filePath, fmt);
    }
  }

  lemma WinWordsWellFormed(cfg: BocaPrinterConfig, filePath: string, fmt: Format)
    requires ShellSafe(cfg, filePath, fmt)
    ensures var w := CommandWords("win32", cfg, filePath, fmt);
            forall i :: 0 <= i < |w| ==> WellFormedWord(w[i])
  {
    NoQuoteConcat(fmt(cfg.width), "x");
    NoQuoteConcat(fmt(cfg.width) + "x", fmt(cfg.height));
    OnePart(Quoted(cfg.windowsPrintUtility));
    OnePart(Bare("-printer"));
    OnePart(Quoted(cfg.printerName));
    OnePart(Bare("-dpi"));
    OnePart(Bare(fmt(cfg.dpi)));
    OnePart(Bare("-papersize"));
    OnePart(Quoted(fmt(cfg.width) + "x" + fmt(cfg.height)));
    OnePart(Quoted(filePath));
    EightWords(CommandWords("win32", cfg, filePath, fmt));
  }

  lemma LpWordsWellFormed(cfg: BocaPrinterConfig, filePath: string, fmt: Format)
    requires ShellSafe(cfg, filePath, fmt)
    ensures var w := CommandWords("lp", cfg, filePath, fmt);
            forall i :: 0 <= i < |w| ==> WellFormedWord(w[i])
  {
    var media := "BOCA " + fmt(cfg.width) + "x" + fmt(cfg.height) + "in";
    MediaNoQuote(fmt(cfg.width), fmt(cfg.height));
    ResolutionWellFormed(fmt(cfg.dpi));
    OnePart(Bare("lp"));
    OnePart(Bare("-d"));
    OnePart(Quoted(cfg.printerName));
    OnePart(Bare("-o"));
    TwoParts(Bare("media="), Quoted(media));
    OnePart(Bare("resolution=" + fmt(cfg.dpi)));
    OnePart(Quoted(filePath));
    EightWords(CommandWords("lp", cfg, filePath, fmt));
  }

  lemma OnePart(p: Part)
    requires WellFormedPart(p) && (p.Quoted? || p.text != "")
    ensures WellFormedWord([p])
  {
  }

  lemma TwoParts(p: Part, q: Part)
    requires WellFormedPart(p) && WellFormedPart(q) && (p.Quoted? || p.text != "")
    ensures WellFormedWord([p, q])
  {
  }

  lemma EightWords(w: seq<Word>)
    requires |w| == 8
    requires WellFormedWord(w[0]) && WellFormedWord(w[1]) && WellFormedWord(w[2]) && WellFormedWord(w[3])
    requires WellFormedWord(w[4]) && WellFormedWord(w[5]) && WellFormedWord(w[6]) && WellFormedWord(w[7])
    ensures forall i :: 0 <= i < |w| ==> WellFormedWord(w[i])
  {
  }

  lemma MediaNoQuote(fw: string, fh: string)
    requires NoQuote(fw) && NoQuote(fh)
    ensures NoQuote("BOCA " + fw + "x" + fh + "in")
  {
    NoQuoteConcat("BOCA ", fw);
    NoQuoteConcat("BOCA " + fw, "x");
    NoQuoteConcat("BOCA " + fw + "x", fh);
    NoQuoteConcat("BOCA " + fw + "x" + fh, "in");
  }

  lemma ResolutionWellFormed(d: string)
    requires NoQuote(d) && NoBlank(d)
    ensures WellFormedPart(Bare("resolution=" + d))
  {
    NoQuoteConcat("resolution=", d);
    forall i | 0 <= i < |"resolution=" + d|
      ensures ("resolution=" + d)[i] != ' '
    {
      if i >= 11 {
        assert ("resolution=" + d)[i] == d[i - 11];
      }
    }
  }

  /** What the printing program receives: the shell turns the command line
      into exactly the intended arguments. */
  lemma CommandPassesArgv(platform: string, cfg: BocaPrinterConfig, filePath: string, fmt: Format)
    requires ShellSafe(cfg, filePath, fmt)
    ensures ShellWords(PrintCommand(platform, cfg, filePath, fmt)) == Some(Argv(platform, cfg, filePath, fmt))
  {
    var w := CommandWords(platform, cfg, filePath, fmt);
    CommandIsLine(platform, cfg, filePath, fmt);
    CommandWordsWellFormed(platform, cfg, filePath, fmt);
    LineSplitsIntoValues(w);
    CommandValues(platform, cfg, filePath, fmt);
  }

  /** The values of the command's words are the intended arguments. */
  lemma CommandValues(platform: string, cfg: BocaPrinterConfig, filePath: string, fmt: Format)
    ensures Values(CommandWords(platform, cfg, filePath, fmt)) == Argv(platform, cfg, filePath, fmt)
  {
    ValuesOfEight(CommandWords(platform, cfg, filePath, fmt));
    if platform != "win32" {
      var fw, fh := fmt(cfg.width), fmt(cfg.height);
      assert "media=" + ("BOCA " + fw + "x" + fh + "in") == "media=BOCA " + fw + "x" + fh + "in";
    }
  }

  // ---------------------------------------------------------------------
  // The printer's stderr and the effects of one print job.
  // ---------------------------------------------------------------------

  /** `s.includes(p)`: `p` occurs in `s` at some position. */
  predicate Includes(s: string, p: string)
    decreases |s|
  {
    if |p| > |s| then false else s[..|p|] == p || Includes(s[1..], p)
  }

  /** `p` occurs in `s` starting at index `i`. */
  predicate OccursAt(s: string, p: string, i: int) {
    0 <= i && i + |p| <= |s| && s[i..i + |p|] == p
  }

  lemma {:induction false} IncludesOccurs(s: string, p: string)
    requires Includes(s, p)
    ensures exists i :: OccursAt(s, p, i)
    decreases |s|
  {
    if s[..|p|] == p {
      assert OccursAt(s, p, 0);
    } else {
      IncludesOccurs(s[1..], p);
      var j :| OccursAt(s[1..], p, j);
      assert s[j + 1..j + 1 + |p|] == s[1..][j..j + |p|];
      assert OccursAt(s, p, j + 1);
    }
  }

  lemma {:induction false} OccursIncludes(s: string, p: string, i: int)
    requires OccursAt(s, p, i)
    ensures Includes(s, p)
    decreases i
  {
    if i > 0 {
      var t := s[1..];
      assert t[i - 1..i - 1 + |p|] == s[i..i + |p|];
      OccursIncludes(t, p, i - 1);
    }
  }

  lemma IncludesIff(s: string, p: string)
    ensures Includes(s, p) <==> exists i :: OccursAt(s, p, i)
  {
    if Includes(s, p) {
      IncludesOccurs(s, p);
    }
    forall i | OccursAt(s, p, i)
      ensures Includes(s, p)
    {
      OccursIncludes(s, p, i);
    }
  }

  const RequestingPrinter := "requesting printer"

  /** `directPrint` reports stderr as a print error exactly when it is
      non-empty and is not the "requesting printer" notice. */
  predicate IsPrintError(stderr: string) {
    stderr != "" && !Includes(stderr, RequestingPrinter)
  }

  lemma PrintErrorIff(stderr: string)
    ensures IsPrintError(stderr)
            <==> |stderr| > 0 && forall i :: !OccursAt(stderr, RequestingPrinter, i)
  {
    IncludesIff(stderr, RequestingPrinter);
  }

  /** Any stderr that mentions "requesting printer", wherever, is not an error. */
  lemma NoticeIsNotAnError(before: string, after: string)
    ensures !IsPrintError(before + RequestingPrinter + after)
  {
    var s := before + RequestingPrinter + after;
    assert s[|before|..|before| + |RequestingPrinter|] == RequestingPrinter;
    assert OccursAt(s, RequestingPrinter, |before|);
    IncludesIff(s, RequestingPrinter);
  }

  /** How the spawned print command ends: it completes with its output, or
      the promise rejects (non-zero exit or spawn failure). */
  datatype ExecResult = Completed(stdout: string, stderr: string) | Rejected

  datatype LogLine = Executing(command: string) | PrintError(stderr: string) | DeleteFailed

  /** The effects of one `directPrint` call: what it logs, whether it tries
      to delete the staged file, and whether it rejects. */
  datatype PrintEffects = PrintEffects(logs: seq<LogLine>, unlinkAttempted: bool, rejected: bool)

  /** One print job. `exec` stands for running a command line and
      `unlinkSucceeds` for the outcome of deleting the staged file. */
  function DirectPrint(platform: string, env: Env, parse: NumberParse, fmt: Format, filePath: string,
                       exec: string -> ExecResult, unlinkSucceeds: bool): (e: PrintEffects)
    ensures |e.logs| >= 1 && e.logs[0] == Executing(PrintCommand(platform, GetPrinterConfig(env, parse), filePath, fmt))
  {
    var cmd := PrintCommand(platform, GetPrinterConfig(env, parse), filePath, fmt);
    match exec(cmd)
    case Rejected => PrintEffects([Executing(cmd)], false, true)
    case Completed(_, stderr) =>
      var errorLog := if IsPrintError(stderr) then [PrintError(stderr)] else [];
      var deleteLog := if unlinkSucceeds then [] else [DeleteFailed];
      PrintEffects([Executing(cmd)] + errorLog + deleteLog, true, false)
  }

  /** The staged file is deleted only when the command completes; a
      rejected command skips the cleanup and rejects in turn. An error on
      stderr or a failed delete is logged but never rejects. */
  lemma CleanupFollowsExec(platform: string, env: Env, parse: NumberParse, fmt: Format, filePath: string,
                           exec: string -> ExecResult, unlinkSucceeds: bool)
    ensures var cmd := PrintCommand(platform, GetPrinterConfig(env, parse), filePath, fmt);
            var e := DirectPrint(platform, env, parse, fmt, filePath, exec, unlinkSucceeds);
            && (e.unlinkAttempted <==> exec(cmd).Completed?)
            && (e.rejected <==> exec(cmd).Rejected?)
            && (PrintError(if exec(cmd).Completed? then exec(cmd).stderr else "") in e.logs
                <==> exec(cmd).Completed? && IsPrintError(exec(cmd).stderr))
            && (DeleteFailed in e.logs <==> exec(cmd).Completed? && !unlinkSucceeds)
  {
  }
}
