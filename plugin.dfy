/** The plugin object: its name, the step records it reads and edits, and
    what it has emitted, logged and asked of the user interface so far. Each
    handler works step by step as the Python methods do; its contract ties
    the new state to the specification of one run in module Handshake. */
module UserPrompt {
  import opened Handshake

  /** What the step options dialog returns: whether OK was pressed, and the
      form's values. */
  datatype EditReply = EditReply(ok: bool, values: StepOptions)

  /** The defaults of the step form: an empty message and an empty schema. */
  const DEFAULT_OPTIONS: StepOptions := StepOptions("", "")

  class UserPromptPlugin {
    /** `self.name`, set once from the plugin's name. */
    const name: string
    /** The step records as the plugin sees them through `get_step_options`
        and `set_step_values`, by zero-based step number. */
    var steps: map<nat, StepOptions>
    /** Every signal emitted, in order. */
    var signals: seq<Signal>
    /** Every record logged by the handlers, in order. */
    var log: seq<LogRecord>
    /** Every prompt the handlers asked the user interface for, in order:
        a message box once its dialog is requested, a schema form once the
        title is built and the schema decoded. */
    var prompts: seq<Prompt>
    /** How many times `on_step_run` has been handled. */
    ghost var runs: nat

    /** The runner has received exactly one outcome per handled run, every
        outcome is None or 'Fail', and every one names this plugin. */
    ghost predicate Valid()
      reads this`signals, this`runs
    {
      OneOutcomePerRun(name, signals, runs)
    }

    constructor (pluginName: string, protocol: map<nat, StepOptions>)
      ensures Valid()
      ensures name == pluginName && steps == protocol
      ensures signals == [] && log == [] && prompts == [] && runs == 0
    {
      name := pluginName;
      steps := protocol;
      signals := [];
      log := [];
      prompts := [];
      runs := 0;
    }

    /** `get_step_options()`: the stored record, or the form's defaults. */
    function StepOptionsAt(n: nat): StepOptions
      reads this`steps
    {
      if n in steps then steps[n] else DEFAULT_OPTIONS
    }

    /** `on_step_run()` at zero-based step `n`: the new signals, log records
        and prompts are exactly those of Run, and the runner has one more
        outcome. The step records are left alone. */
    method OnStepRun(n: nat, ui: Ui)
      requires Valid()
      modifies this`signals, this`log, this`prompts, this`runs
      ensures Valid() && runs == old(runs) + 1
      ensures signals == old(signals) + Run(name, n, old(StepOptionsAt(n)), ui).signals
      ensures log == old(log) + Run(name, n, old(StepOptionsAt(n)), ui).log
      ensures prompts == old(prompts) + PromptsOf(Run(name, n, old(StepOptionsAt(n)), ui).prompt)
    {
      log := log + [LogRecord(Info, StepRunText(n))];
      var opts := StepOptionsAt(n);
      if opts.message == "" && opts.schema == "" {
        // nothing to show
        signals := signals + [StepComplete(name, Continue)];
      } else {
        var q := AskOperator(n, opts, ui);
        prompts := prompts + PromptsOf(q.prompt);
        Conclude(q.attempt);
      }
      runs := runs + 1;
      RunKeepsValid(name, n, opts, ui, old(signals), old(runs));
    }

    /** The end of the try body and its except clauses: on success notify
        `step-prompt-accepted` and then complete with None; on ValueError
        log a warning and fail; on any other exception log an error and fail. */
    method Conclude(attempt: Reply<Values>)
      modifies this`signals, this`log
      ensures signals == old(signals) + Finish(name, attempt).signals
      ensures log == old(log) + Finish(name, attempt).log
    {
      match attempt {
        case Returned(values) =>
          signals := signals + [PromptAccepted(values)];
          signals := signals + [StepComplete(name, Continue)];
        case Raised(ValueError) =>
          log := log + [LogRecord(Warning, STOPPED)];
          signals := signals + [StepComplete(name, Fail)];
        case Raised(OtherException) =>
          log := log + [LogRecord(Error, STOPPED)];
          signals := signals + [StepComplete(name, Fail)];
      }
    }

    /** `on_step_options_menu__activate()`: show the step form filled with
        the current step's options and store what it returns only on OK;
        every other step, and everything emitted so far, is left alone. */
    method OnStepOptionsMenuActivate(n: nat, edit: StepOptions -> EditReply)
      modifies this`steps
      ensures var r := edit(old(StepOptionsAt(n)));
        steps == (if r.ok then old(steps)[n := r.values] else old(steps)) &&
        StepOptionsAt(n) == (if r.ok then r.values else old(StepOptionsAt(n)))
      ensures forall m :: m != n ==> StepOptionsAt(m) == old(StepOptionsAt(m))
    {
      var reply := edit(StepOptionsAt(n));
      if reply.ok {
        steps := steps[n := reply.values];
      }
    }
  }

  /** The try body of `on_step_run` up to the emissions. In message mode:
      ask for the message box and read its response, where anything other than
      OK raises ValueError and OK enters no values. In schema mode: build the
      title, which raises ValueError for a non-ASCII message, decode the
      schema, and ask for the form on it. */
  method AskOperator(n: nat, opts: StepOptions, ui: Ui) returns (q: Asked)
    requires opts.message != "" || opts.schema != ""
    ensures q == Ask(n, opts, ui)
  {
    var title := BaseTitle(n);
    if opts.schema == "" {
      var p := MessageBox(title, opts.message);
      var response := ui.dialog(p);
      match response {
        case Returned(code) =>
          if code != RESPONSE_ACCEPT {
            q := Asked(Some(p), Raised(ValueError));
          } else {
            q := Asked(Some(p), Returned(map[]));
          }
        case Raised(e) =>
          q := Asked(Some(p), Raised(e));
      }
    } else {
      if opts.message != "" {
        if !IsAscii(opts.message) {
          // UnicodeEncodeError while formatting the title
          return Asked(None, Raised(ValueError));
        }
        title := Title(n, opts);
      }
      var parsed := ui.parse(opts.schema);
      match parsed {
        case Raised(e) =>
          q := Asked(None, Raised(e));
        case Returned(schema) =>
          var p := SchemaForm(title, schema);
          q := Asked(Some(p), ui.form(p));
      }
    }
  }

  /** The prompts a run asks for: none or one. */
  function PromptsOf(p: Option<Prompt>): seq<Prompt> {
    if p.Some? then [p.value] else []
  }

  /** A history of signals from `runs` handled runs of the plugin `name`:
      exactly one outcome per run, none of them Repeat, all naming the plugin. */
  ghost predicate OneOutcomePerRun(name: string, signals: seq<Signal>, runs: nat) {
    |Completions(signals)| == runs &&
    Repeat !in Completions(signals) &&
    forall s :: s in signals && s.StepComplete? ==> s.plugin == name
  }

  /** Appending the signals of one more run keeps one outcome per run. */
  lemma RunKeepsValid(name: string, n: nat, opts: StepOptions, ui: Ui, before: seq<Signal>, runs: nat)
    requires OneOutcomePerRun(name, before, runs)
    ensures OneOutcomePerRun(name, before + Run(name, n, opts, ui).signals, runs + 1)
  {
    var s := Run(name, n, opts, ui).signals;
    RunCompletesOnce(name, n, opts, ui);
    CompletionsAppend(before, s);
  }
}
