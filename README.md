# User prompt plugin: a Dafny model of the step handshake

The microdrop user-prompt plugin stops at a protocol step to show the operator
a message or a value-entry form. When the step has no prompt it goes straight
on. In every case it tells the protocol runner, through exactly one
`on_step_complete` signal, whether the step went on (`None`) or stopped the
protocol (`'Fail'`). A second handler lets the operator edit a step's message
and schema through the step options dialog.

The project models these two handlers and proves what they promise:

- `decimal.dfy` (module `Decimal`) renders a natural number in decimal, as
  Python formats an `int`. It proves that the numeral reads back as the
  number, that canonical numerals read back as themselves, and that distinct
  numbers give distinct numerals. Step titles are built from these numerals.
- `handshake.dfy` (module `Handshake`) states one run of `on_step_run` as
  pure functions of the step options and of the replies of the user
  interface. `ModeOf` picks the mode, `Title` builds the dialog title,
  `TitleEncodes` says whether Python 2 can build it, `MessageAttempt` reads
  a message box response, `Ask` gives the try body up to the emissions,
  `Finish` gives the except clauses, and `Run` gives the whole run. The
  lemmas prove that:
  - the fast path is exact;
  - the title has the right shape and identifies the step;
  - message mode succeeds only on OK;
  - in schema mode, a non-ASCII message or a schema that does not decode
    fails the step before any form is asked for;
  - each exception class is logged at its own level;
  - a successful run emits its acceptance before its completion;
  - every run emits exactly one completion, and it is never `'Repeat'`.
- `plugin.dfy` (module `UserPrompt`) is the plugin object. It is a class with
  these fields:
  - the step records;
  - the signals emitted so far;
  - the log records so far;
  - the prompts asked of the user interface so far.

  `OnStepRun` runs the handler step by step, as the Python method does. Its
  contract ties the new signals, log and prompts to `Run`. `OnStepRun` keeps
  the class invariant `Valid()`: the runner has seen one outcome per handled
  run, no outcome is `'Repeat'`, and every outcome names the plugin.
  `OnStepOptionsMenuActivate` stores the edited options only when the dialog
  returns OK, and no other step changes.

The model does not perform any user-interface or host calls. Each one becomes
a parameter:

- `dialog` maps a message box to the response code of `gtk.Dialog.run()`, or
  to an exception raised while building or running the dialog.
- `parse` is `json.loads` on the schema text: a decoded document, or the
  exception it raises (`ValueError` for malformed JSON).
- `form` maps a schema form on the decoded schema to the values of
  `pg.schema.schema_dialog`, or to the exception it raises.
- `edit` maps the current step options to the `(ok, values)` pair of the
  step options `FormViewDialog`.
- The protocol's current step number is the parameter `n`, zero-based.

Exceptions are the two classes the handler tells apart: `ValueError`, and
every other `Exception`. `gtk.RESPONSE_ACCEPT` is -3, as in PyGTK.

The step message is a unicode string, as flatland's `String` field holds it,
while the title's format string is a byte string. In schema mode,
`str.format` in Python 2 therefore encodes the message as ASCII. A non-ASCII
character raises `UnicodeEncodeError`, which is a `ValueError`. The step is
then logged as stopped with a warning and fails, and no form is shown.

Three further facts about the code:

- Editing a step's options does not validate or normalise the schema. The
  dialog's values are stored as they are.
- A malformed schema is only found when the step runs. `json.loads` raises
  `ValueError` inside the `try`. That is logged as a warning, not as an
  error, and the step fails.
- The schema-mode title with a message is "[Step k] message". The message is
  part of the title, not shown as a separate body.

## Model

| member | source | states |
|---|---|---|
| UserPrompt.UserPromptPlugin.OnStepRun | __init__.py:118-189 | the signals, log records and prompts asked for that one run appends are exactly those of `Run` for the current step's options; the step records are not changed; there is one more handled run, and the invariant of one outcome per run, none of them Repeat, is kept |
| UserPrompt.UserPromptPlugin.Conclude | __init__.py:177-189 | success emits `step-prompt-accepted` with the values and then completes with None; `ValueError` logs the warning "Protocol stopped." and completes with 'Fail'; any other exception logs the error and completes with 'Fail' |
| UserPrompt.AskOperator | __init__.py:142-176 | the try body up to the emissions is exactly `Ask`: in message mode the message box titled "Step k" with the message is asked for, a response other than OK yields `ValueError` and OK yields no values; in schema mode a non-ASCII message yields `ValueError` with nothing asked for, a schema `json.loads` rejects yields its exception with nothing asked for, and otherwise the form on the decoded schema is asked for and its reply is the result |
| UserPrompt.UserPromptPlugin.OnStepOptionsMenuActivate | __init__.py:110-116 | the options dialog is filled with the current step's options (or the defaults); its values are stored for that step only when it returns OK; every other step's options are unchanged |
| UserPrompt.UserPromptPlugin.constructor | __init__.py:69-79 | a new plugin carries its name, has emitted, logged and asked for nothing, and satisfies the invariant |
| UserPrompt.RunKeepsValid | __init__.py:124-132 | appending the signals of one run to a history with one outcome per run, none Repeat and all naming the plugin, gives a history with one outcome more that keeps all three properties |
| Handshake.ModeOf | __init__.py:138-145 | a step is skipped exactly when both message and schema are empty, uses the message box exactly when only the message is set, and uses the schema form exactly when a schema is set |
| Handshake.RunCompletesOnce | __init__.py:138-189 | every run emits exactly one completion, it is Continue or Fail and never Repeat, it is the last signal and names the plugin, and at most one acceptance precedes it; an acceptance is emitted exactly when the run was prompted and continued, and then a prompt was asked for and the acceptance carries the values it produced |
| Handshake.FastPath | __init__.py:134-140 | with empty message and schema, the run asks for nothing, logs only the step-run record and completes with None, whatever the operator would have replied |
| Handshake.PromptAsked | __init__.py:142-176 | no prompt is asked for exactly when both fields are empty, or in schema mode when the title cannot be encoded or `json.loads` raises; message mode asks for a message box titled "Step k" holding the message; schema mode otherwise asks for the form titled as `Title` says on the decoded schema |
| Handshake.UnencodableTitleFails | __init__.py:170-185 | in schema mode a message with a non-ASCII character makes the run ask for nothing, log "Protocol stopped." as a warning after the step-run record, and fail, whatever the user interface would reply |
| Handshake.MalformedSchemaFails | __init__.py:173-189 | in schema mode with a buildable title, a schema `json.loads` rejects makes the run ask for nothing and fail, logging a warning for `ValueError` and an error for any other exception |
| Handshake.Ask | __init__.py:143-176 | a run that asks for no prompt has raised |
| Handshake.FailureLogged | __init__.py:182-189 | after the step-run record, a run that raised logs "Protocol stopped." as a warning for `ValueError` and as an error otherwise, and fails; a run that returned logs nothing more and continues |
| Handshake.MessageModeOutcome | __init__.py:162-185 | in message mode the run continues exactly when the dialog answered `RESPONSE_ACCEPT`, and then the signals are an acceptance with no values followed by completion with None |
| Handshake.MessageAttempt | __init__.py:162-168 | a response code other than `RESPONSE_ACCEPT` raises `ValueError`, `RESPONSE_ACCEPT` gives the empty values, and an exception from the dialog passes through |
| Handshake.FinishOutcome | __init__.py:177-189 | the signals after the try body hold exactly one completion: Continue when the prompt returned values, Fail when it raised |
| Handshake.BaseTitleDigits | __init__.py:142 | the base title is "Step " followed by a canonical numeral whose value is the one-based step number |
| Handshake.TitleLayout | __init__.py:142-172 | with a schema and a message, the title, when it can be built, is "[", the base title, "] " and the message; otherwise it is the base title alone |
| Handshake.TitleIdentifiesStep | __init__.py:142-172 | for the same options, equal titles mean the same step |
| Handshake.CompletionsAppend | __init__.py:124-127 | the outcomes of two signal histories joined are the outcomes of the first followed by those of the second |
| Decimal.ToDecimal | __init__.py:142 | the step number is printed as a non-empty numeral of digits with no leading zero, one digit long exactly when below ten |
| Decimal.FromToDecimal | __init__.py:142 | reading back the printed numeral gives the number |
| Decimal.ToFromDecimal | __init__.py:142 | every canonical numeral is the printed form of its own value |
| Decimal.ToDecimalInjective | __init__.py:142 | two numbers print alike if and only if they are equal |

## Left out

- The menu plumbing (`create_ui`, `destroy_ui`, `on_plugin_enable`, `on_plugin_disable`, lines 81-108) is not modelled. It only builds and removes GTK widgets.
- `@gtk_threadsafe` is not modelled. It moves each handler onto the GTK main thread, and each handler is modelled as one atomic call.
- The widgets themselves are not modelled: their layout, sizes, modality and parent window. Only the title and body of the prompt asked for, and the reply, are kept. A message box is recorded as asked for even when building the `gtk.Dialog` raises. That failure is part of the `dialog` reply.
- Reading `app.main_window_controller.view` (line 144) is assumed not to raise. If it raised, the step would fail with no prompt asked for, and the model does not capture that case.
- Handshake.TitleLayout: states the layout of `Title` as a string, which describes the title only when `TitleEncodes` holds. `UnencodableTitleFails` covers the other case.
- A byte-string message is not modelled. Messages are unicode, as flatland's `String` holds them, and Python 2 encodes them as ASCII.
- The dialog, `json.loads`, `pg.schema.schema_dialog` and the step options `FormViewDialog` are oracles. The model does not check which values a form produces or that they match the schema's fields.
- Plugin registration, the metaclass, `version`, `plugin_name` lookup, the signal declaration and the logger setup are not modelled. They are host wiring.
- The subscriber connected in `__init__` (lines 78-79) is not modelled. It logs "Step prompt accepted" with Python's rendering of the values, and the model has no string form for values.
- The fields `timeout_id`, `start_time`, `menu_item`, `menu` and `step_options_menu`, set to None in `__init__`, are not modelled. The core never reads them.
- The traceback attached to the error record (`exc_info=True`) is not modelled.
- Exceptions that are not subclasses of `Exception` (such as `KeyboardInterrupt`) are not modelled. Such an exception would escape the handler with no completion.
- `emit` and `emit_signal` are assumed not to raise. If a subscriber's exception escaped the success-path emission, the except clauses would send a second completion. The model does not capture that case.
- The host calls before the `try` (`get_app`, reading the step number, `get_step_options`) are assumed not to raise.
- `set_step_values` is modelled as replacing the step's record. Its own value handling and the notifications it may emit belong to the host and are not modelled.
- An exception raised by the step options dialog is not modelled. The handler has no except clause, so it would propagate to GTK.
- The step number comes from `app.protocol.current_step_number`, host state that the model takes as the parameter `n`.
- Entry values are abstract: text, integer, number and flag. Python's dynamic types beyond these are not modelled.

