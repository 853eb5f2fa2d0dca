/**
 * The runner's error values: a recovered panic, the opaque error every
 * fallible call returns, the two setup-failure contexts, and the
 * append-only list that gathers (context, error) pairs instead of stopping
 * at the first one.
 */
module Failures {
  import opened Wrappers
  import opened Browsers

  /** What a panic carries, as far as the runner can tell: a `String`, a `&str`, or anything else. */
  datatype Payload = StringPayload(text: string) | StrPayload(text: string) | OtherPayload

  /** A panic recovered at the test boundary, with the message it carried if any. */
  datatype CaughtPanic = CaughtPanic(message: Option<string>)

  /** `CaughtPanic::new`: downcast the payload to `String`, then to `&str`, else keep no message. */
  function NewCaughtPanic(p: Payload): (c: CaughtPanic)
    ensures c.message.Some? <==> !p.OtherPayload?
    ensures !p.OtherPayload? ==> c.message == Some(p.text)
  {
    match p
    case StringPayload(s) => CaughtPanic(Some(s))
    case StrPayload(s) => CaughtPanic(Some(s))
    case OtherPayload => CaughtPanic(None)
  }

  /** `Display for CaughtPanic` (its `Debug` delegates here too). */
  function CaughtPanicText(c: CaughtPanic): (s: string)
    ensures c.message.None? ==> s == "Unknown error"
    ensures c.message.Some? ==> s == c.message.value
  {
    match c.message
    case Some(m) => m
    case None => "Unknown error"
  }

  /**
   * An `anyhow::Error`: either an error from a collaborator, whose `{}` and
   * `{:#?}` texts are opaque, or a recovered panic. `{:#?}` on an anyhow
   * error prints the wrapped error's own `Debug`.
   */
  datatype Error = Foreign(display: string, debug: string) | Panic(panic: CaughtPanic)

  /** The text of an error under `{}` (`debug` false) or `{:#?}` (`debug` true). */
  function ErrorText(e: Error, debug: bool): string {
    match e
    case Foreign(d, g) => if debug then g else d
    case Panic(c) => CaughtPanicText(c)
  }

  /** A panic's message reaches the error text unchanged; anything but a string payload reads "Unknown error". */
  lemma PanicMessageShown(p: Payload, debug: bool)
    ensures ErrorText(Panic(NewCaughtPanic(p)), debug) ==
      if p.OtherPayload? then "Unknown error" else p.text
  {
  }

  /** Context of an engine that could not be brought up. */
  datatype FailedToInitialize = FailedToInitialize(browser: BrowserType)

  const InitPrefix: string := "Failed to initialize "

  function FailedToInitializeText(f: FailedToInitialize): (s: string)
    ensures |s| > |InitPrefix| && s[..|InitPrefix|] == InitPrefix
    ensures s[|InitPrefix|..] == BrowserTypeText(f.browser)
  {
    InitPrefix + BrowserTypeText(f.browser)
  }

  /** Two initialization failures print the same line only when they are about the same engine. */
  lemma FailedToInitializeTextInjective(f: FailedToInitialize, g: FailedToInitialize)
    requires FailedToInitializeText(f) == FailedToInitializeText(g)
    ensures f == g
  {
    BrowserTypeTextInjective(f.browser, g.browser);
  }

  /** Context of a matrix cell whose browser context or page could not be opened. */
  datatype FailedToOpenPage = FailedToOpenPage(testName: string, browserType: BrowserType)

  const OpenPrefix: string := "Failed to open page in "

  /** Names the engine right after the fixed prefix and the test at the very end. */
  function FailedToOpenPageText(f: FailedToOpenPage): (s: string)
    ensures var b := BrowserTypeText(f.browserType);
      && |s| == |OpenPrefix| + |b| + 4 + |f.testName|
      && s[..|OpenPrefix|] == OpenPrefix
      && s[|OpenPrefix|..|OpenPrefix| + |b|] == b
      && s[|OpenPrefix| + |b|..|OpenPrefix| + |b| + 4] == " of "
      && s[|s| - |f.testName|..] == f.testName
  {
    var b := BrowserTypeText(f.browserType);
    var s := OpenPrefix + b + " of " + f.testName;
    assert s[..|OpenPrefix|] == OpenPrefix;
    assert s[|OpenPrefix|..|OpenPrefix| + |b|] == b;
    assert s[|OpenPrefix| + |b|..|OpenPrefix| + |b| + 4] == " of ";
    assert s[|s| - |f.testName|..] == f.testName;
    s
  }

  /**
   * `ErrorList<C>`: the (context, error) pairs of one run, in the order they
   * were recorded. It is created from its first pair and only ever grows.
   */
  class ErrorList<C> {
    var entries: seq<(C, Error)>

    ghost predicate Valid()
      reads this
    {
      |entries| > 0
    }

    /** `ErrorList::new`. */
    constructor (context: C, error: Error)
      ensures Valid()
      ensures entries == [(context, error)]
    {
      entries := [(context, error)];
    }

    /** `ErrorList::push`. */
    method Push(context: C, error: Error)
      modifies this
      ensures Valid()
      ensures entries == old(entries) + [(context, error)]
    {
      entries := entries + [(context, error)];
    }
  }

  /** One line of an error list: `\t- {context}: {error}`. */
  function EntryLine<C>(entry: (C, Error), show: C -> string, debug: bool): string {
    "\t- " + show(entry.0) + ": " + ErrorText(entry.1, debug) + "\n"
  }

  function EntryLines<C>(entries: seq<(C, Error)>, show: C -> string, debug: bool): string {
    if entries == [] then ""
    else EntryLines(entries[..|entries| - 1], show, debug) + EntryLine(entries[|entries| - 1], show, debug)
  }

  /** `Display` (`debug` false) and `Debug` (`debug` true) of an `ErrorList`. */
  function ErrorListText<C>(entries: seq<(C, Error)>, show: C -> string, debug: bool): (s: string)
    ensures |s| >= |ListHeader| && s[..|ListHeader|] == ListHeader
    ensures s[|s| - 1] == '\n'
    ensures entries == [] <==> s == ListHeader
  {
    var lines := EntryLines(entries, show, debug);
    assert entries != [] ==> lines[|lines| - 1] == '\n';
    ListHeader + lines
  }

  /** The first line of a rendered error list. */
  const ListHeader: string := "ErrorList:\n"

  /** A new list renders as the header and the line `\t- {context}: {error}` of its one pair. */
  lemma ErrorListTextNew<C>(c: C, e: Error, show: C -> string, debug: bool)
    ensures ErrorListText([(c, e)], show, debug) == "ErrorList:\n\t- " + show(c) + ": " + ErrorText(e, debug) + "\n"
  {
    ErrorListTextPush([], c, e, show, debug);
    assert [] + [(c, e)] == [(c, e)];
    assert ErrorListText([], show, debug) == ListHeader;
  }

  /** Pushing a pair adds exactly its line `\t- {context}: {error}` at the end of the rendering. */
  lemma ErrorListTextPush<C>(entries: seq<(C, Error)>, c: C, e: Error, show: C -> string, debug: bool)
    ensures ErrorListText(entries + [(c, e)], show, debug) ==
      ErrorListText(entries, show, debug) + "\t- " + show(c) + ": " + ErrorText(e, debug) + "\n"
  {
    assert (entries + [(c, e)])[..|entries|] == entries;
  }

  function Newlines(s: string): nat {
    if s == [] then 0 else Newlines(s[..|s| - 1]) + (if s[|s| - 1] == '\n' then 1 else 0)
  }

  lemma {:induction false} NewlinesAppend(a: string, b: string)
    ensures Newlines(a + b) == Newlines(a) + Newlines(b)
  {
    if b == [] {
      assert a + b == a;
    } else {
      assert (a + b)[..|a + b| - 1] == a + b[..|b| - 1];
      assert (a + b)[|a + b| - 1] == b[|b| - 1];
      NewlinesAppend(a, b[..|b| - 1]);
    }
  }

  /** Whether the contexts and errors of a list print on one line each. */
  predicate SingleLineEntries<C>(entries: seq<(C, Error)>, show: C -> string, debug: bool) {
    forall i :: 0 <= i < |entries| ==>
      Newlines(show(entries[i].0)) == 0 && Newlines(ErrorText(entries[i].1, debug)) == 0
  }

  /**
   * The rendered list is a header line plus exactly one line per recorded
   * error, as long as no context or error text spans several lines.
   */
  lemma {:induction false} ErrorListLineCount<C>(entries: seq<(C, Error)>, show: C -> string, debug: bool)
    ensures SingleLineEntries(entries, show, debug) ==> Newlines(ErrorListText(entries, show, debug)) == |entries| + 1
  {
    if SingleLineEntries(entries, show, debug) {
      EntryLinesCount(entries, show, debug);
      NewlinesAppend(ListHeader, EntryLines(entries, show, debug));
      assert Newlines(ListHeader) == 1 by {
        assert "ErrorList:\n"[..10] == "ErrorList:";
        SingleLine("ErrorList:");
      }
    }
  }

  /** Text without a line break counts no lines. */
  lemma {:induction false} SingleLine(s: string)
    requires forall i :: 0 <= i < |s| ==> s[i] != '\n'
    ensures Newlines(s) == 0
  {
    if s != [] {
      SingleLine(s[..|s| - 1]);
    }
  }

  lemma {:induction false} EntryLinesCount<C>(entries: seq<(C, Error)>, show: C -> string, debug: bool)
    requires SingleLineEntries(entries, show, debug)
    ensures Newlines(EntryLines(entries, show, debug)) == |entries|
  {
    if entries != [] {
      var init, last := entries[..|entries| - 1], entries[|entries| - 1];
      assert SingleLineEntries(init, show, debug) by {
        forall i | 0 <= i < |init| ensures init[i] == entries[i] { }
      }
      EntryLinesCount(init, show, debug);
      NewlinesAppend(EntryLines(init, show, debug), EntryLine(last, show, debug));
      var c, e := show(last.0), ErrorText(last.1, debug);
      NewlinesAppend("\t- " + c + ": " + e, "\n");
      NewlinesAppend("\t- " + c + ": ", e);
      NewlinesAppend("\t- " + c, ": ");
      NewlinesAppend("\t- ", c);
      assert Newlines("\n") == 1 by { assert "\n"[..0] == ""; }
      SingleLine(": ");
      SingleLine("\t- ");
    }
  }
}
