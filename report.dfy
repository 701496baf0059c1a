/**
 * The user configuration report (lib/config/UserConfigReport.js): three
 * append-only lists of findings, filled in while the user's configuration is
 * validated, which decide whether a build may go ahead and make up the
 * report text. Colours are not modelled; rendering a value for display is a
 * parameter (`inspect`).
 */
module ConfigReport {
  import opened Js

  /** `{path, value, message}` */
  datatype ErrorEntry = ErrorEntry(path: string, value: Value, message: string)

  /** `{path, messages}` of a deprecation or a hint. */
  datatype Notice = Notice(path: string, messages: seq<string>)

  const Tick := "✔"
  const Cross := "✖"
  const Warning := "⚠"
  const Info := "ℹ"

  /** The tool's `pluralise`: no suffix for exactly one, "s" otherwise. */
  function Pluralise(n: nat): string
  {
    if n == 1 then "" else "s"
  }

  /** A section title: the count is shown only when there is more than one entry. */
  function Heading(n: nat, word: string): (h: string)
  {
    (if n > 1 then NatToString(n) + " " else "") + word + Pluralise(n)
  }

  function ErrorLines(es: seq<ErrorEntry>, inspect: Value -> string): seq<string>
  {
    if es == [] then []
    else
      var e := es[|es| - 1];
      ErrorLines(es[..|es| - 1], inspect) + [Cross + " " + e.path + " = " + inspect(e.value), "  " + e.message, ""]
  }

  function MessageLines(ms: seq<string>): (r: seq<string>)
    ensures |r| == |ms|
  {
    if ms == [] then [] else MessageLines(ms[..|ms| - 1]) + ["  " + ms[|ms| - 1]]
  }

  function NoticeLines(symbol: string, ns: seq<Notice>): seq<string>
  {
    if ns == [] then []
    else
      var n := ns[|ns| - 1];
      NoticeLines(symbol, ns[..|ns| - 1]) + [symbol + " " + n.path] + MessageLines(n.messages) + [""]
  }

  /** A section: its heading and a blank line when it has entries, then the entries. */
  function Section(n: nat, word: string, body: seq<string>): seq<string>
  {
    (if n > 0 then [Heading(n, word), ""] else []) + body
  }

  const NothingToReport := Tick + " Nothing to report!"

  function Title(source: string): string
  {
    "nwb config report for " + source
  }

  class UserConfigReport {
    const configFileExists: bool
    const configPath: string
    var deprecations: seq<Notice>
    var errors: seq<ErrorEntry>
    var hints: seq<Notice>
    var hasArgumentOverrides: bool

    constructor (configFileExists: bool, configPath: string)
      ensures this.configFileExists == configFileExists && this.configPath == configPath
      ensures deprecations == [] && errors == [] && hints == []
      ensures !hasArgumentOverrides
    {
      this.configFileExists := configFileExists;
      this.configPath := configPath;
      deprecations := [];
      errors := [];
      hints := [];
      hasArgumentOverrides := false;
    }

    method Deprecated(path: string, messages: seq<string>)
      modifies this`deprecations
      ensures deprecations == old(deprecations) + [Notice(path, messages)]
      ensures HasErrors() == old(HasErrors())
    {
      deprecations := deprecations + [Notice(path, messages)];
    }

    method Error(path: string, value: Value, message: string)
      modifies this`errors
      ensures errors == old(errors) + [ErrorEntry(path, value, message)]
      ensures HasErrors()
    {
      errors := errors + [ErrorEntry(path, value, message)];
    }

    method Hint(path: string, messages: seq<string>)
      modifies this`hints
      ensures hints == old(hints) + [Notice(path, messages)]
      ensures HasErrors() == old(HasErrors())
    {
      hints := hints + [Notice(path, messages)];
    }

    /** The one signal that decides whether the build may go ahead. */
    predicate HasErrors()
      reads this
    {
      |errors| > 0
    }

    predicate HasSomethingToReport()
      reads this
    {
      |errors| + |deprecations| + |hints| > 0
    }

    function GetConfigSource(): (s: string)
      reads this
      ensures configFileExists ==> s == configPath + (if hasArgumentOverrides then " (with CLI argument overrides)" else "")
      ensures !configFileExists && hasArgumentOverrides ==> s == "config via CLI arguments"
      ensures !configFileExists && !hasArgumentOverrides ==> s == "funsies"
    {
      if configFileExists then
        configPath + (if hasArgumentOverrides then " (with CLI argument overrides)" else "")
      else if hasArgumentOverrides then "config via CLI arguments"
      else "funsies"
    }

    /** The report, one line per element; the text is these lines joined by newlines. */
    method GetReport(inspect: Value -> string) returns (lines: seq<string>)
      ensures lines == ReportLines(GetConfigSource(), errors, deprecations, hints, inspect)
    {
      lines := [Title(GetConfigSource()), ""];
      if !HasSomethingToReport() {
        lines := lines + [NothingToReport];
        return;
      }
      var errorLines := RenderErrors(errors, inspect);
      var deprecationLines := RenderNotices(deprecations, Warning);
      var hintLines := RenderNotices(hints, Info);
      lines := lines + Section(|errors|, "Error", errorLines);
      lines := lines + Section(|deprecations|, "Deprecation Warning", deprecationLines);
      lines := lines + Section(|hints|, "Hint", hintLines);
    }
  }

  /** The lines for the error entries, pushed entry by entry. */
  method RenderErrors(es: seq<ErrorEntry>, inspect: Value -> string) returns (out: seq<string>)
    ensures out == ErrorLines(es, inspect)
  {
    out := [];
    var i := 0;
    while i < |es|
      invariant 0 <= i <= |es|
      invariant out == ErrorLines(es[..i], inspect)
    {
      var e := es[i];
      PrefixStep(es, i);
      out := out + [Cross + " " + e.path + " = " + inspect(e.value), "  " + e.message, ""];
      i := i + 1;
    }
    assert es[..i] == es;
  }

  /** The lines for deprecations or hints, pushed entry by entry and message by message. */
  method RenderNotices(ns: seq<Notice>, symbol: string) returns (out: seq<string>)
    ensures out == NoticeLines(symbol, ns)
  {
    out := [];
    var i := 0;
    while i < |ns|
      invariant 0 <= i <= |ns|
      invariant out == NoticeLines(symbol, ns[..i])
    {
      var n := ns[i];
      PrefixStep(ns, i);
      var ms := RenderMessages(n.messages);
      out := out + [symbol + " " + n.path] + ms + [""];
      i := i + 1;
    }
    assert ns[..i] == ns;
  }

  method RenderMessages(ms: seq<string>) returns (out: seq<string>)
    ensures out == MessageLines(ms)
  {
    out := [];
    var j := 0;
    while j < |ms|
      invariant 0 <= j <= |ms|
      invariant out == MessageLines(ms[..j])
    {
      PrefixStep(ms, j);
      out := out + ["  " + ms[j]];
      j := j + 1;
    }
    assert ms[..j] == ms;
  }

  /** The report's lines: a title, then either the all-clear or the sections
      for errors, deprecations and hints, in that order. */
  function ReportLines(source: string, errors: seq<ErrorEntry>, deprecations: seq<Notice>,
                       hints: seq<Notice>, inspect: Value -> string): seq<string>
  {
    if |errors| + |deprecations| + |hints| == 0 then
      [Title(source), "", NothingToReport]
    else
      [Title(source), ""]
      + Section(|errors|, "Error", ErrorLines(errors, inspect))
      + Section(|deprecations|, "Deprecation Warning", NoticeLines(Warning, deprecations))
      + Section(|hints|, "Hint", NoticeLines(Info, hints))
  }

  /** A line that is not the all-clear line: it does not start with the tick. */
  predicate NotAllClear(line: string)
  {
    line == "" || line[0] != Tick[0]
  }

  lemma NatToStringStartsWithDigit(n: nat)
    ensures |NatToString(n)| > 0 && '0' <= NatToString(n)[0] <= '9'
  {
    if n >= 10 {
      NatToStringStartsWithDigit(n / 10);
    }
  }

  lemma {:induction false} ErrorLinesNotAllClear(es: seq<ErrorEntry>, inspect: Value -> string)
    ensures forall l :: l in ErrorLines(es, inspect) ==> NotAllClear(l)
  {
    if es != [] {
      ErrorLinesNotAllClear(es[..|es| - 1], inspect);
    }
  }

  lemma {:induction false} MessageLinesNotAllClear(ms: seq<string>)
    ensures forall l :: l in MessageLines(ms) ==> NotAllClear(l)
  {
    if ms != [] {
      MessageLinesNotAllClear(ms[..|ms| - 1]);
    }
  }

  lemma {:induction false} NoticeLinesNotAllClear(symbol: string, ns: seq<Notice>)
    requires symbol == Warning || symbol == Info
    ensures forall l :: l in NoticeLines(symbol, ns) ==> NotAllClear(l)
  {
    if ns != [] {
      NoticeLinesNotAllClear(symbol, ns[..|ns| - 1]);
      MessageLinesNotAllClear(ns[|ns| - 1].messages);
    }
  }

  lemma HeadingNotAllClear(n: nat, word: string)
    requires word != [] && 'A' <= word[0] <= 'Z'
    ensures NotAllClear(Heading(n, word))
  {
    if n > 1 {
      NatToStringStartsWithDigit(n);
    }
  }

  /** The all-clear line is printed exactly when there is nothing to report. */
  lemma AllClearIffNothingToReport(source: string, errors: seq<ErrorEntry>, deprecations: seq<Notice>,
                                   hints: seq<Notice>, inspect: Value -> string)
    ensures NothingToReport in ReportLines(source, errors, deprecations, hints, inspect)
        <==> |errors| + |deprecations| + |hints| == 0
  {
    if |errors| + |deprecations| + |hints| > 0 {
      ErrorLinesNotAllClear(errors, inspect);
      NoticeLinesNotAllClear(Warning, deprecations);
      NoticeLinesNotAllClear(Info, hints);
      HeadingNotAllClear(|errors|, "Error");
      HeadingNotAllClear(|deprecations|, "Deprecation Warning");
      HeadingNotAllClear(|hints|, "Hint");
      var lines := ReportLines(source, errors, deprecations, hints, inspect);
      assert forall l :: l in lines ==> NotAllClear(l);
    }
  }

  /** A section heading carries a count prefix exactly when the section has more than one entry. */
  lemma HeadingCountPrefix(n: nat, word: string)
    requires word != [] && 'A' <= word[0] <= 'Z'
    ensures n > 1 <==> StartsWith(Heading(n, word), NatToString(n) + " ")
  {
    NatToStringStartsWithDigit(n);
    if n <= 1 {
      assert Heading(n, word)[0] == word[0];
    }
  }
}
