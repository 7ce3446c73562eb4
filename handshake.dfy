/** The step-run handshake of the user prompt plugin, as values.

    When the protocol runner starts a step, the plugin reads the step's
    options `{message, schema}` and either completes at once (both empty) or
    prompts the operator: a plain accept/cancel message box when there is no
    schema, a form built from the JSON schema otherwise. Whatever the prompt
    does, the plugin answers the runner with exactly one `on_step_complete`
    signal whose outcome is `None` (success) or `'Fail'`; on success it first
    emits `step-prompt-accepted` with the values entered.

    The dialog toolkit, `json.loads` and the schema-to-form library are not
    part of this model: they are oracles, functions from what the plugin
    hands them to the reply the plugin observes (a returned value or the
    class of the exception that escaped). */
module Handshake {
  import Decimal

  /** The per-step record the plugin stores: both fields default to "". */
  datatype StepOptions = StepOptions(message: string, schema: string)

  /** A value the operator entered into a schema field. */
  datatype Value = Text(text: string) | Integer(i: int) | Number(r: real) | Flag(b: bool)

  /** The mapping from schema field names to entered values. */
  type Values = map<string, Value>

  /** The outcome reported to the runner: `Continue` is Python's `None`.
      `Repeat` is part of the runner's taxonomy; this plugin never reports it. */
  datatype Outcome = Continue | Repeat | Fail

  /** Signals the plugin emits. */
  datatype Signal =
    | StepComplete(plugin: string, outcome: Outcome)  // emit_signal('on_step_complete', [name, outcome])
    | PromptAccepted(values: Values)                  // self.emit('step-prompt-accepted', values)

  datatype Level = Info | Warning | Error

  datatype LogRecord = LogRecord(level: Level, text: string)

  /** A decoded JSON document, as `json.loads` returns it. */
  datatype Json =
    | JNull
    | JBool(b: bool)
    | JNumber(r: real)
    | JString(text: string)
    | JArray(items: seq<Json>)
    | JObject(members: map<string, Json>)

  /** The prompt the plugin asks the user interface for. */
  datatype Prompt =
    | MessageBox(title: string, body: string)  // gtk.Dialog with OK/Cancel and the message as its label
    | SchemaForm(title: string, schema: Json)  // schema_dialog(schema, title=title) on the decoded schema

  /** Python distinguishes the two exception classes the handler catches:
      `ValueError` (and its subclasses) and every other `Exception`. */
  datatype Exc = ValueError | OtherException

  /** What a call into the user interface gives back: a value, or an exception. */
  datatype Reply<T> = Returned(value: T) | Raised(exc: Exc)

  /** gtk.RESPONSE_ACCEPT, the response code of the OK button. */
  const RESPONSE_ACCEPT: int := -3

  const STOPPED: string := "Protocol stopped."

  /** How a run proceeds, chosen from the step options alone. */
  datatype Mode = Skip | MessageMode | SchemaMode

  function ModeOf(opts: StepOptions): (m: Mode)
    ensures m == Skip <==> opts.message == "" && opts.schema == ""
    ensures m == MessageMode <==> opts.message != "" && opts.schema == ""
    ensures m == SchemaMode <==> opts.schema != ""
  {
    if opts.message == "" && opts.schema == "" then Skip
    else if opts.schema == "" then MessageMode
    else SchemaMode
  }

  /** The base dialog title: "Step " and the one-based step number. */
  function BaseTitle(n: nat): string {
    "Step " + Decimal.ToDecimal(n + 1)
  }

  /** The base title is "Step " followed by a canonical numeral that reads
      back as the one-based step number. */
  lemma BaseTitleDigits(n: nat)
    ensures var t := BaseTitle(n);
      |t| > 5 && t[..5] == "Step " &&
      Decimal.IsCanonical(t[5..]) && Decimal.FromDecimal(t[5..]) == n + 1
  {
    var digits := Decimal.ToDecimal(n + 1);
    Decimal.FromToDecimal(n + 1);
    assert BaseTitle(n)[5..] == digits;
  }

  /** The dialog title: with a schema and a message, the message joins the
      base title as "[Step k] message"; otherwise the title is the base title
      and any message goes into the dialog body. The bracketed form exists
      only when TitleEncodes holds. */
  function Title(n: nat, opts: StepOptions): string {
    var base := BaseTitle(n);
    if opts.schema != "" && opts.message != "" then "[" + base + "] " + opts.message else base
  }

  /** The layout of the title: "[", the base title, "] ", the message, in
      schema mode with a message; the base title alone otherwise. */
  lemma TitleLayout(n: nat, opts: StepOptions)
    ensures var t, b := Title(n, opts), BaseTitle(n);
      (opts.schema == "" || opts.message == "" ==> t == b) &&
      (opts.schema != "" && opts.message != "" ==>
        |t| == |b| + 3 + |opts.message| &&
        t[0] == '[' && t[1..|b| + 1] == b && t[|b| + 1..|b| + 3] == "] " && t[|b| + 3..] == opts.message)
  {
  }

  /** Two runs with the same options show the same title only for the same step. */
  lemma TitleIdentifiesStep(n1: nat, n2: nat, opts: StepOptions)
    requires Title(n1, opts) == Title(n2, opts)
    ensures n1 == n2
  {
    var b1, b2 := BaseTitle(n1), BaseTitle(n2);
    TitleLayout(n1, opts);
    TitleLayout(n2, opts);
    if opts.schema != "" && opts.message != "" {
      assert |b1| == |b2|;
      assert b1 == Title(n1, opts)[1..|b1| + 1] == Title(n2, opts)[1..|b2| + 1] == b2;
    }
    assert b1[5..] == Decimal.ToDecimal(n1 + 1) && b2[5..] == Decimal.ToDecimal(n2 + 1);
    Decimal.ToDecimalInjective(n1 + 1, n2 + 1);
  }

  /** A string of ASCII characters only. */
  predicate IsAscii(s: string) {
    forall i :: 0 <= i < |s| ==> s[i] as int < 128
  }

  /** Whether the schema-mode title can be built. The message is a unicode
      string and the format string a byte string, so Python 2's `str.format`
      encodes the message as ASCII and raises UnicodeEncodeError, a subclass
      of ValueError, on any other character. */
  predicate TitleEncodes(opts: StepOptions) {
    opts.message == "" || IsAscii(opts.message)
  }

  /** The info record logged at the start of every run (zero-based step). */
  function StepRunText(n: nat): string {
    "[UserPromptPlugin] on_step_run(): step #" + Decimal.ToDecimal(n)
  }

  /** Message mode: any response other than OK raises ValueError; OK means
      the operator acknowledged and entered no values. */
  function MessageAttempt(reply: Reply<int>): (a: Reply<Values>)
    ensures a.Returned? <==> reply == Returned(RESPONSE_ACCEPT)
    ensures a.Returned? ==> a.value == map[]
    ensures reply.Returned? && reply.value != RESPONSE_ACCEPT ==> a == Raised(ValueError)
    ensures reply.Raised? ==> a == Raised(reply.exc)
  {
    match reply
    case Returned(code) => if code != RESPONSE_ACCEPT then Raised(ValueError) else Returned(map[])
    case Raised(e) => Raised(e)
  }

  /** What one run asks of the user interface and emits, in order. */
  datatype RunTrace = RunTrace(prompt: Option<Prompt>, signals: seq<Signal>, log: seq<LogRecord>)

  datatype Option<T> = None | Some(value: T)

  /** The outcomes among the signals, in order. */
  function Completions(signals: seq<Signal>): (outs: seq<Outcome>)
    ensures |outs| <= |signals|
  {
    if signals == [] then []
    else (if signals[0].StepComplete? then [signals[0].outcome] else []) + Completions(signals[1..])
  }

  /** The values carried by the accepted notifications among the signals, in order. */
  function AcceptedValues(signals: seq<Signal>): (vs: seq<Values>)
    ensures |vs| + |Completions(signals)| == |signals|
  {
    if signals == [] then []
    else (if signals[0].PromptAccepted? then [signals[0].values] else []) + AcceptedValues(signals[1..])
  }

  lemma {:induction false} CompletionsAppend(a: seq<Signal>, b: seq<Signal>)
    ensures Completions(a + b) == Completions(a) + Completions(b)
    decreases |a|
  {
    if a == [] {
      assert a + b == b;
    } else {
      assert (a + b)[0] == a[0];
      assert (a + b)[1..] == a[1..] + b;
      CompletionsAppend(a[1..], b);
    }
  }

  /** The oracles one run consults: `dialog` answers a message box with a
      response code, `parse` is `json.loads` on the schema text, and `form`
      answers a schema form with the entered values. */
  datatype Ui = Ui(dialog: Prompt -> Reply<int>, parse: string -> Reply<Json>, form: Prompt -> Reply<Values>)

  /** How far the try body got before the emissions: the prompt it asked the
      user interface for, if it got that far, and the values or exception. */
  datatype Asked = Asked(prompt: Option<Prompt>, attempt: Reply<Values>)

  /** The try body of a prompted run up to the emissions. In message mode the
      message box is asked for and its response read. In schema mode the
      title is built first, then the schema decoded; the form is asked for
      only when both succeed. A run that asks for nothing has raised. */
  function Ask(n: nat, opts: StepOptions, ui: Ui): (q: Asked)
    requires ModeOf(opts) != Skip
    ensures q.prompt.None? ==> q.attempt.Raised?
  {
    if opts.schema == "" then
      var p := MessageBox(Title(n, opts), opts.message);
      Asked(Some(p), MessageAttempt(ui.dialog(p)))
    else if !TitleEncodes(opts) then
      Asked(None, Raised(ValueError))
    else
      match ui.parse(opts.schema)
      case Raised(e) => Asked(None, Raised(e))
      case Returned(schema) =>
        var p := SchemaForm(Title(n, opts), schema);
        Asked(Some(p), ui.form(p))
  }

  /** What a run emits and logs after the try body. */
  datatype Effects = Effects(signals: seq<Signal>, log: seq<LogRecord>)

  /** The except clauses and the success path after the try body: success
      notifies and completes with None, ValueError logs a warning and fails,
      any other exception logs an error and fails. */
  function Finish(name: string, a: Reply<Values>): Effects {
    match a
    case Returned(values) => Effects([PromptAccepted(values), StepComplete(name, Continue)], [])
    case Raised(ValueError) => Effects([StepComplete(name, Fail)], [LogRecord(Warning, STOPPED)])
    case Raised(OtherException) => Effects([StepComplete(name, Fail)], [LogRecord(Error, STOPPED)])
  }

  /** The outcome after the try body: None exactly when it returned. */
  lemma FinishOutcome(name: string, a: Reply<Values>)
    ensures Completions(Finish(name, a).signals) == [if a.Returned? then Continue else Fail]
  {
    match a {
      case Returned(v) =>
        var s := [PromptAccepted(v), StepComplete(name, Continue)];
        assert s[1..] == [StepComplete(name, Continue)];
      case Raised(_) =>
    }
  }

  /** One `on_step_run` of the plugin called `name` at zero-based step `n`
      with options `opts`, consulting the oracles `ui`. */
  function Run(name: string, n: nat, opts: StepOptions, ui: Ui): RunTrace {
    var info := LogRecord(Info, StepRunText(n));
    if ModeOf(opts) == Skip then RunTrace(None, [StepComplete(name, Continue)], [info])
    else
      var q := Ask(n, opts, ui);
      var f := Finish(name, q.attempt);
      RunTrace(q.prompt, f.signals, [info] + f.log)
  }

  /** The shape of the signals of one run: an optional acceptance, then the
      completion, which names the plugin and is None or 'Fail'. */
  ghost predicate OneHandshake(name: string, s: seq<Signal>) {
    |Completions(s)| == 1 && Completions(s)[0] != Repeat &&
    s[|s| - 1] == StepComplete(name, Completions(s)[0]) &&
    |AcceptedValues(s)| <= 1 && |s| == 1 + |AcceptedValues(s)|
  }

  /** Every run answers the runner exactly once, with None or 'Fail', as its
      last signal; `step-prompt-accepted` comes before it exactly when the
      run was prompted and succeeds, and then a prompt was asked for and the
      notification carries the values entered. */
  lemma RunCompletesOnce(name: string, n: nat, opts: StepOptions, ui: Ui)
    ensures var t := Run(name, n, opts, ui);
      OneHandshake(name, t.signals) &&
      (|AcceptedValues(t.signals)| == 1 <==> ModeOf(opts) != Skip && Completions(t.signals) == [Continue]) &&
      (|AcceptedValues(t.signals)| == 1 ==>
        t.prompt.Some? && t.signals[0] == PromptAccepted(Ask(n, opts, ui).attempt.value))
  {
    if ModeOf(opts) != Skip {
      FinishOutcome(name, Ask(n, opts, ui).attempt);
    }
  }

  /** With no message and no schema the run asks for nothing, ignores the
      user interface and completes with None. */
  lemma FastPath(name: string, n: nat, opts: StepOptions, ui: Ui)
    requires opts.message == "" && opts.schema == ""
    ensures Run(name, n, opts, ui) ==
      RunTrace(None, [StepComplete(name, Continue)], [LogRecord(Info, StepRunText(n))])
  {
  }

  /** Which prompt a run asks the user interface for: a message box titled
      "Step k" carrying the message when there is no schema; in schema mode
      the form titled by Title on the decoded schema, but only when the
      title could be built and the schema decoded; nothing otherwise. */
  lemma PromptAsked(name: string, n: nat, opts: StepOptions, ui: Ui)
    ensures var t, parsed := Run(name, n, opts, ui), ui.parse(opts.schema);
      (t.prompt == None <==>
        (opts.message == "" && opts.schema == "") ||
        (opts.schema != "" && (!TitleEncodes(opts) || parsed.Raised?))) &&
      (opts.message != "" && opts.schema == "" ==> t.prompt == Some(MessageBox(BaseTitle(n), opts.message))) &&
      (opts.schema != "" && TitleEncodes(opts) && parsed.Returned? ==>
        t.prompt == Some(SchemaForm(Title(n, opts), parsed.value)))
  {
  }

  /** In schema mode a message with a non-ASCII character stops the run
      before the schema is read: nothing is asked for, a warning is logged
      and the step fails, whatever the user interface would have done. */
  lemma UnencodableTitleFails(name: string, n: nat, opts: StepOptions, ui: Ui)
    requires opts.schema != "" && opts.message != "" && !IsAscii(opts.message)
    ensures Run(name, n, opts, ui) ==
      RunTrace(None, [StepComplete(name, Fail)], [LogRecord(Info, StepRunText(n)), LogRecord(Warning, STOPPED)])
  {
  }

  /** A schema that `json.loads` rejects stops the run before any form is
      asked for: a ValueError, such as malformed JSON, is logged as a
      warning, any other exception as an error, and the step fails. */
  lemma MalformedSchemaFails(name: string, n: nat, opts: StepOptions, ui: Ui)
    requires opts.schema != "" && TitleEncodes(opts) && ui.parse(opts.schema).Raised?
    ensures var t, level := Run(name, n, opts, ui),
        if ui.parse(opts.schema).exc == ValueError then Warning else Error;
      t == RunTrace(None, [StepComplete(name, Fail)], [LogRecord(Info, StepRunText(n)), LogRecord(level, STOPPED)])
  {
  }

  /** The log of a run: the info record, then a warning when the try body
      raised ValueError, an error when it raised anything else, nothing on
      success. */
  lemma FailureLogged(name: string, n: nat, opts: StepOptions, ui: Ui)
    requires ModeOf(opts) != Skip
    ensures var t, a := Run(name, n, opts, ui), Ask(n, opts, ui).attempt;
      t.log[0] == LogRecord(Info, StepRunText(n)) &&
      (Completions(t.signals) == [Fail] <==> a.Raised?) &&
      (a == Raised(ValueError) <==> t.log == [LogRecord(Info, StepRunText(n)), LogRecord(Warning, STOPPED)]) &&
      (a == Raised(OtherException) <==> t.log == [LogRecord(Info, StepRunText(n)), LogRecord(Error, STOPPED)]) &&
      (a.Returned? <==> t.log == [LogRecord(Info, StepRunText(n))])
  {
    var a := Ask(n, opts, ui).attempt;
    FinishOutcome(name, a);
    match a {
      case Returned(_) =>
      case Raised(ValueError) =>
      case Raised(OtherException) =>
        assert Run(name, n, opts, ui).log[1] != LogRecord(Warning, STOPPED);
    }
  }

  /** In message mode the step succeeds, with no values, exactly when the
      operator presses OK; any other response or any exception fails it. */
  lemma MessageModeOutcome(name: string, n: nat, opts: StepOptions, ui: Ui)
    requires opts.message != "" && opts.schema == ""
    ensures var t, reply := Run(name, n, opts, ui), ui.dialog(MessageBox(BaseTitle(n), opts.message));
      (Completions(t.signals) == [Continue] <==> reply == Returned(RESPONSE_ACCEPT)) &&
      (reply == Returned(RESPONSE_ACCEPT) ==> t.signals == [PromptAccepted(map[]), StepComplete(name, Continue)])
  {
    assert Ask(n, opts, ui).prompt == Some(MessageBox(BaseTitle(n), opts.message));
    FinishOutcome(name, Ask(n, opts, ui).attempt);
  }
}
