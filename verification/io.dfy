/** Where the CLI's input text comes from (`readMaybeFileOrStdin`,
    src/io.ts): a file, the positional text, or piped stdin, in that order of
    preference, with Windows line endings normalised.  Reading the file and
    draining stdin are effects outside the model: the file system is the
    parameter `readFile` and the outcome of draining stdin (its text, or the
    stream's error) is the parameter `stdin`. */
module InputSource {
  import opened Results
  import opened Strings

  /** Why no input text could be produced. */
  datatype InputError =
    | NoInput                  // stdin is a terminal and nothing else was given
    | NoInputOnStdin           // stdin was piped but held only whitespace
    | ReadFailed(reason: string) // the file system refused the named file
    | StdinFailed(reason: string) // the stdin stream reported an error
  {
    function Message(): string {
      match this
      case NoInput =>
        "No input provided. Pass text as an argument, use --file <path>, or pipe via stdin."
      case NoInputOnStdin =>
        "No input provided on stdin. Pass text as an argument, use --file <path>, or pipe via stdin."
      case ReadFailed(reason) => reason
      case StdinFailed(reason) => reason
    }
  }

  // ----- normalizeText -------------------------------------------------------

  /** `s.replace(/\r\n/g, "\n")`: each CR LF pair, scanned left to right,
      becomes a single LF. */
  function NormalizeText(s: string): (r: string)
    ensures |r| <= |s|
    decreases |s|
  {
    if |s| >= 2 && s[0] == '\r' && s[1] == '\n' then "\n" + NormalizeText(s[2..])
    else if s == [] then []
    else [s[0]] + NormalizeText(s[1..])
  }

  /** A CR LF pair starts at position `i`. */
  predicate CrlfAt(s: string, i: int) {
    0 <= i && i + 1 < |s| && s[i] == '\r' && s[i + 1] == '\n'
  }

  predicate HasCrlf(s: string) {
    exists i :: 0 <= i < |s| && CrlfAt(s, i)
  }

  /** The number of positions at which a CR LF pair starts. */
  function CrlfCount(s: string): nat
    decreases |s|
  {
    if |s| < 2 then 0 else (if CrlfAt(s, 0) then 1 else 0) + CrlfCount(s[1..])
  }

  /** The text with every CR removed. */
  function DropCr(s: string): string
    decreases |s|
  {
    if s == [] then [] else (if s[0] == '\r' then [] else [s[0]]) + DropCr(s[1..])
  }

  lemma CrlfShift(s: string, i: int)
    requires |s| > 0 && i >= 0
    ensures CrlfAt(s[1..], i) <==> CrlfAt(s, i + 1)
  {
    if 0 <= i && i + 1 < |s[1..]| {
      assert s[1..][i] == s[i + 1] && s[1..][i + 1] == s[i + 2];
    }
  }

  /** Normalising changes a text exactly when it holds a CR LF pair. */
  lemma {:induction false} NormalizeUnchanged(s: string)
    ensures NormalizeText(s) == s <==> !HasCrlf(s)
    decreases |s|
  {
    if |s| >= 2 && s[0] == '\r' && s[1] == '\n' {
      assert CrlfAt(s, 0);
      assert |NormalizeText(s)| < |s|;
    } else if s != [] {
      NormalizeUnchanged(s[1..]);
      assert NormalizeText(s) == [s[0]] + NormalizeText(s[1..]);
      if HasCrlf(s) {
        var i :| 0 <= i < |s| && CrlfAt(s, i);
        assert i != 0;
        CrlfShift(s, i - 1);
      }
      if HasCrlf(s[1..]) {
        var i :| 0 <= i < |s[1..]| && CrlfAt(s[1..], i);
        CrlfShift(s, i);
      }
      assert NormalizeText(s) == s <==> NormalizeText(s[1..]) == s[1..] by {
        if NormalizeText(s) == s {
          assert NormalizeText(s)[1..] == NormalizeText(s[1..]);
        }
      }
    }
  }

  /** Each CR LF pair loses exactly its CR: the text shrinks by the number of
      pairs. */
  lemma {:induction false} NormalizeLength(s: string)
    ensures |NormalizeText(s)| == |s| - CrlfCount(s)
    decreases |s|
  {
    if |s| >= 2 && s[0] == '\r' && s[1] == '\n' {
      NormalizeLength(s[2..]);
      assert CrlfCount(s) == 1 + CrlfCount(s[1..]);
      assert s[1..][1..] == s[2..];
      assert !CrlfAt(s[1..], 0);
      if |s[1..]| >= 2 {
        assert CrlfCount(s[1..]) == CrlfCount(s[2..]);
      }
    } else if s != [] {
      NormalizeLength(s[1..]);
      assert !CrlfAt(s, 0);
    }
  }

  lemma {:induction false} DropCrAppend(a: string, b: string)
    ensures DropCr(a + b) == DropCr(a) + DropCr(b)
    decreases |a|
  {
    if a == [] {
      assert a + b == b;
    } else {
      assert (a + b)[1..] == a[1..] + b;
      DropCrAppend(a[1..], b);
    }
  }

  /** Only carriage returns are removed: apart from CRs the text is
      unchanged, in content and order. */
  lemma {:induction false} NormalizeKeepsContent(s: string)
    ensures DropCr(NormalizeText(s)) == DropCr(s)
    decreases |s|
  {
    if |s| >= 2 && s[0] == '\r' && s[1] == '\n' {
      NormalizeKeepsContent(s[2..]);
      DropCrAppend("\n", NormalizeText(s[2..]));
      assert s == "\r\n" + s[2..];
      DropCrAppend("\r\n", s[2..]);
      assert DropCr("\r\n") == "\n" by {
        assert "\r\n"[1..] == "\n" && "\n"[1..] == [];
      }
      assert DropCr("\n") == "\n" by {
        assert "\n"[1..] == [];
      }
    } else if s != [] {
      NormalizeKeepsContent(s[1..]);
      DropCrAppend([s[0]], NormalizeText(s[1..]));
    }
  }

  /** A single character is left alone: only a CR directly followed by an
      LF is rewritten. */
  lemma NormalizeChar(c: char)
    ensures NormalizeText([c]) == [c]
  {
    assert [c][1..] == [];
  }

  lemma NormalizeCrlf()
    ensures NormalizeText("\r\n") == "\n"
  {
    assert "\r\n"[2..] == [];
  }

  /** Normalising works piece by piece, as long as the cut does not split a
      CR LF pair.  With `NormalizeChar` and `NormalizeCrlf` this determines
      the result on every text: each lone CR stays where it is. */
  lemma {:induction false} NormalizeAppend(a: string, b: string)
    requires !(a != [] && a[|a| - 1] == '\r' && b != [] && b[0] == '\n')
    ensures NormalizeText(a + b) == NormalizeText(a) + NormalizeText(b)
    decreases |a|
  {
    var s := a + b;
    if a == [] {
      assert s == b;
    } else if |a| >= 2 && a[0] == '\r' && a[1] == '\n' {
      assert s[0] == '\r' && s[1] == '\n';
      assert s[2..] == a[2..] + b;
      NormalizeAppend(a[2..], b);
      PrefixAssoc("\n", NormalizeText(a[2..]), NormalizeText(b));
    } else {
      assert !(|s| >= 2 && s[0] == '\r' && s[1] == '\n') by {
        if |a| == 1 && |s| >= 2 {
          assert s[1] == b[0];
        } else if |a| >= 2 {
          assert s[1] == a[1];
        }
      }
      assert s[1..] == a[1..] + b;
      NormalizeAppend(a[1..], b);
      PrefixAssoc([a[0]], NormalizeText(a[1..]), NormalizeText(b));
    }
  }

  /** A CR that does not start a pair is kept in place. */
  lemma NormalizeLoneCr()
    ensures NormalizeText("\rx\r\n") == "\rx\n"
  {
    NormalizeChar('\r');
    NormalizeChar('x');
    NormalizeCrlf();
    NormalizeAppend("x", "\r\n");
    assert "x" + "\r\n" == "x\r\n";
    NormalizeAppend("\r", "x\r\n");
    assert "\r" + "x\r\n" == "\rx\r\n";
  }

  lemma AllSpaceAppend(a: string, b: string)
    ensures AllSpace(a + b) <==> AllSpace(a) && AllSpace(b)
  {
    if AllSpace(a + b) {
      forall i | 0 <= i < |a| ensures IsSpace(a[i]) {
        assert a[i] == (a + b)[i];
      }
      forall i | 0 <= i < |b| ensures IsSpace(b[i]) {
        assert b[i] == (a + b)[|a| + i];
      }
    }
  }

  /** Whitespace stays whitespace: normalising neither blanks a text nor
      un-blanks one. */
  lemma {:induction false} NormalizeAllSpace(s: string)
    ensures AllSpace(NormalizeText(s)) <==> AllSpace(s)
    decreases |s|
  {
    if |s| >= 2 && s[0] == '\r' && s[1] == '\n' {
      NormalizeAllSpace(s[2..]);
      AllSpaceAppend("\n", NormalizeText(s[2..]));
      assert s == s[..2] + s[2..];
      AllSpaceAppend(s[..2], s[2..]);
    } else if s != [] {
      NormalizeAllSpace(s[1..]);
      AllSpaceAppend([s[0]], NormalizeText(s[1..]));
      assert s == [s[0]] + s[1..];
      AllSpaceAppend([s[0]], s[1..]);
    }
  }

  /** A text is blank after normalising exactly when it was before. */
  lemma NormalizeBlank(s: string)
    ensures IsBlank(NormalizeText(s)) <==> IsBlank(s)
  {
    NormalizeAllSpace(s);
    BlankIffAllSpace(s);
    BlankIffAllSpace(NormalizeText(s));
  }

  /** The regular expression does not rescan its own output, so normalising
      is not idempotent: CR CR LF becomes CR LF. */
  lemma NormalizeNotIdempotent()
    ensures NormalizeText("\r\r\n") == "\r\n"
    ensures NormalizeText(NormalizeText("\r\r\n")) == "\n"
  {
    assert "\r\r\n"[1..] == "\r\n";
    assert "\r\r\n"[1..][2..] == [];
    assert "\r\n"[2..] == [];
  }

  // ----- readMaybeFileOrStdin ------------------------------------------------

  /** `opts.file && opts.file !== "-"`: a named file other than "-", which
      stands for stdin. */
  predicate UsesFile(file: Option<string>) {
    file.Some? && file.value != [] && file.value != "-"
  }

  /** `opts.argText && opts.argText.trim()`: positional text that is not
      blank. */
  predicate UsesArgs(argText: Option<string>) {
    argText.Some? && !IsBlank(argText.value)
  }

  /** The input text: the named file when there is one, else non-blank
      positional text, else piped stdin; each normalised.  A terminal on
      stdin, piped stdin whose stream fails, or piped stdin that is blank, is
      an error. */
  function ReadInput(
    file: Option<string>,
    argText: Option<string>,
    stdinIsTerminal: bool,
    readFile: string -> Result<string, string>,
    stdin: Result<string, string>): (r: Result<string, InputError>)
    ensures UsesFile(file) && readFile(file.value).Ok? ==>
      r == Ok(NormalizeText(readFile(file.value).value))
    ensures UsesFile(file) && readFile(file.value).Err? ==>
      r == Err(ReadFailed(readFile(file.value).error))
    ensures !UsesFile(file) && UsesArgs(argText) ==> r == Ok(NormalizeText(argText.value))
    ensures !UsesFile(file) && !UsesArgs(argText) && stdinIsTerminal ==> r == Err(NoInput)
    ensures !UsesFile(file) && !UsesArgs(argText) && !stdinIsTerminal && stdin.Err? ==>
      r == Err(StdinFailed(stdin.error))
    ensures !UsesFile(file) && !UsesArgs(argText) && !stdinIsTerminal && stdin.Ok? ==>
      r == (if IsBlank(stdin.value) then Err(NoInputOnStdin) else Ok(NormalizeText(stdin.value)))
  {
    if UsesFile(file) then
      match readFile(file.value)
      case Ok(data) => Ok(NormalizeText(data))
      case Err(reason) => Err(ReadFailed(reason))
    else if UsesArgs(argText) then Ok(NormalizeText(argText.value))
    else if stdinIsTerminal then Err(NoInput)
    else
      match stdin
      case Err(reason) => Err(StdinFailed(reason))
      case Ok(text) => if IsBlank(text) then Err(NoInputOnStdin) else Ok(NormalizeText(text))
  }

  // ----- properties of the choice ------------------------------------------

  /** A named file wins: the positional text, the terminal and stdin are not
      consulted. */
  lemma FileWins(
    file: Option<string>, readFile: string -> Result<string, string>,
    argText1: Option<string>, terminal1: bool, stdin1: Result<string, string>,
    argText2: Option<string>, terminal2: bool, stdin2: Result<string, string>)
    requires UsesFile(file)
    ensures ReadInput(file, argText1, terminal1, readFile, stdin1)
         == ReadInput(file, argText2, terminal2, readFile, stdin2)
  {
  }

  /** `--file -` and an empty file name behave as if no file were named. */
  lemma DashMeansStdin(
    argText: Option<string>, stdinIsTerminal: bool,
    readFile: string -> Result<string, string>, stdin: Result<string, string>)
    ensures ReadInput(Some("-"), argText, stdinIsTerminal, readFile, stdin)
         == ReadInput(None, argText, stdinIsTerminal, readFile, stdin)
    ensures ReadInput(Some(""), argText, stdinIsTerminal, readFile, stdin)
         == ReadInput(None, argText, stdinIsTerminal, readFile, stdin)
  {
  }

  /** Without a file, non-blank positional text wins over stdin, and the
      file system is never touched. */
  lemma ArgsBeforeStdin(
    file: Option<string>, argText: Option<string>,
    readFile1: string -> Result<string, string>, terminal1: bool, stdin1: Result<string, string>,
    readFile2: string -> Result<string, string>, terminal2: bool, stdin2: Result<string, string>)
    requires !UsesFile(file) && UsesArgs(argText)
    ensures ReadInput(file, argText, terminal1, readFile1, stdin1)
         == ReadInput(file, argText, terminal2, readFile2, stdin2)
  {
  }

  /** A terminal on stdin is never read: with no file and no usable text the
      call fails whatever stdin would hold. */
  lemma TerminalNotRead(
    file: Option<string>, argText: Option<string>,
    readFile: string -> Result<string, string>, stdin1: Result<string, string>, stdin2: Result<string, string>)
    requires !UsesFile(file) && !UsesArgs(argText)
    ensures ReadInput(file, argText, true, readFile, stdin1)
         == ReadInput(file, argText, true, readFile, stdin2) == Err(NoInput)
  {
  }

  /** The call fails exactly when the named file cannot be read, or when
      there is neither a file nor usable text and stdin is a terminal, fails
      to drain, or is blank. */
  lemma ReadInputFails(
    file: Option<string>, argText: Option<string>, stdinIsTerminal: bool,
    readFile: string -> Result<string, string>, stdin: Result<string, string>)
    ensures ReadInput(file, argText, stdinIsTerminal, readFile, stdin).Err? <==>
      if UsesFile(file) then readFile(file.value).Err?
      else !UsesArgs(argText) && (stdinIsTerminal || stdin.Err? || IsBlank(stdin.value))
  {
  }

  /** Text taken from the arguments or from stdin is never blank once
      normalised; only a file may supply blank input. */
  lemma ReadInputNotBlank(
    file: Option<string>, argText: Option<string>, stdinIsTerminal: bool,
    readFile: string -> Result<string, string>, stdin: Result<string, string>)
    requires !UsesFile(file)
    requires ReadInput(file, argText, stdinIsTerminal, readFile, stdin).Ok?
    ensures !IsBlank(ReadInput(file, argText, stdinIsTerminal, readFile, stdin).value)
  {
    if UsesArgs(argText) {
      NormalizeBlank(argText.value);
    } else {
      NormalizeBlank(stdin.value);
    }
  }

  /** The text returned is the chosen source less one CR per CR LF pair:
      apart from carriage returns it holds the same characters in the same
      order. */
  lemma ReadInputContent(
    file: Option<string>, argText: Option<string>, stdinIsTerminal: bool,
    readFile: string -> Result<string, string>, stdin: Result<string, string>)
    requires ReadInput(file, argText, stdinIsTerminal, readFile, stdin).Ok?
    ensures var r := ReadInput(file, argText, stdinIsTerminal, readFile, stdin).value;
      var src := if UsesFile(file) then readFile(file.value).value
                 else if UsesArgs(argText) then argText.value else stdin.value;
      DropCr(r) == DropCr(src) && |r| == |src| - CrlfCount(src)
  {
    var src := if UsesFile(file) then readFile(file.value).value
               else if UsesArgs(argText) then argText.value else stdin.value;
    NormalizeKeepsContent(src);
    NormalizeLength(src);
  }
}
