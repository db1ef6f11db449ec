# Database setup of the point-of-sale configuration wizard, in Dafny

This project models the sequential logic inside the configuration module of
the point-of-sale application:

- **The stage executor** (`stages.dfy`, `worker.dfy`). One call of the
  setup worker's `runState` runs one of the stages INIT, LOAD, CREATE, TEST
  and DONE. It calls the collaborators that stage needs: the database
  connector's `init`, `clear` and `create`, and every registered module's
  `load_models` or `test_models` hook. It emits START, then zero or more
  progress values, then exactly one of DONE or an error. Each collaborator
  is an abstract outcome (returns, or raises with a cause) in an `Env`. The
  signals become appends to the worker's `events`, and the collaborator calls
  are logged in `calls`, so that their order can be stated.
- **The setup wizard page** (`setup_page.dfy`). This is the observer of those
  events:
  - it runs LOAD after INIT and DONE after TEST by itself;
  - after LOAD and after CREATE it installs a yes/no question, whose yes runs
    the next stage and whose no runs DONE;
  - an error sets a failure flag for good;
  - it computes the overall percentage, chooses the icon and the status text.
  `Workflow` chains stage runs and the page's reactions into the whole setup
  sequence for a given list of answers.
- **The driver form** (`driver_form.dfy`). This is one checkbox and one editor
  per connection field. It supports set, get, clear, load from a profile, and
  save into a profile.
- **The profile pages** (`profiles.dfy`, `profile_pages.dfy`):
  - the information page's validation and next-page choice;
  - the profile page's choice between reusing, renaming or creating a
    profile, then saving and using it.
  The profile store is a map from name to profile.
- **The raw configuration editor's section tab** (`raw_config.dfy`). Each
  option gets a type tag and an editor. `save` writes enabled, tagged rows
  back into the section. Removing an option sets it to None. Lists are joined
  on commas for display and split on commas on save.

Two behaviours of the code worth knowing:
- LOAD and TEST report `FINISH * (i / n)` after the hook of module `i`
  (0-based), so the last value is below FINISH. For three modules this is
  0, 33 and 66, never 99.
- The stored answers of a question are never cleared. Only hiding the
  question keeps it from being answered again, so no once-only property is
  stated.

## Model

| member | source | states |
|---|---|---|
| Worker.Hooks | cbmod/config/views/widgets/database.py:130-134 | one hook outcome per registered module, in registry order |
| Worker.FirstFailure | cbmod/config/views/widgets/database.py:132-139 | the index where the hook loop stops: every earlier hook returned, and this one raised (or it is the count, when none raised) |
| Worker.ModuleProgress | cbmod/config/views/widgets/database.py:135 | the per-module value `FINISH * (i / n)` lies in `[0, FINISH)`, below DONE |
| Worker.StageEvents | cbmod/config/views/widgets/database.py:111-168 | every stage run emits at least two events, the first is `(s, START)`, and all carry the stage `s` |
| Worker.SetupWorker.constructor | cbmod/config/views/widgets/database.py:170-177 | a new worker, constructed and then started, has emitted nothing, called nothing and is running |
| Worker.SetupWorker.RunState | cbmod/config/views/widgets/database.py:111-168 | one `runState` appends exactly the stage's events and collaborator calls; only the DONE stage stops the worker |
| Worker.RunStage | cbmod/config/views/widgets/database.py:112-168 | the body of one `runState` emits exactly the stage's events and makes exactly its calls, in order |
| Worker.RunCreate | cbmod/config/views/widgets/database.py:142-151 | CREATE calls clear, reports the midpoint, then calls create; a raising clear ends the run with its error before create |
| Worker.HookLoop | cbmod/config/views/widgets/database.py:129-139 | the module loop of LOAD and TEST: it succeeds iff no hook fails, and emits the specified events and calls |
| Worker.FirstFailureIs | cbmod/config/views/widgets/database.py:132-139 | the first failure is the index before which all hooks return and at which one raises |
| Worker.ModulesFailAt | cbmod/config/views/widgets/database.py:129-139 | with a listing, LOAD or TEST fails exactly when some hook raises |
| Worker.ModuleProgressIncreasing | cbmod/config/views/widgets/database.py:135 | later modules report strictly larger progress values |
| Worker.StageEndsInDoneOrError | cbmod/config/views/widgets/database.py:112-168 | the last event is DONE iff no collaborator call failed, and an error iff one did; every earlier event is progress below DONE, so nothing follows an error |
| Worker.ModuleStageShape | cbmod/config/views/widgets/database.py:127-139 | LOAD and TEST emit START, one value per module before the first failure, then that module's error or DONE |
| Worker.RampRunOrdered | cbmod/config/views/widgets/database.py:130-135 | START, the module values and a terminal event are in order |
| Worker.StageProgressOrdered | cbmod/config/views/widgets/database.py:111-168 | the progress values of every stage run never decrease, and the intermediate ones strictly increase |
| Worker.ModuleStageSucceeds | cbmod/config/views/widgets/database.py:155-160 | when all `n` hooks return, the run reports `n` values `FINISH * (i / n)` and then DONE |
| Worker.ModuleStageCallsEveryHook | cbmod/config/views/widgets/database.py:130-134 | when all hooks return, the registry is listed and every hook is called once, in registry order |
| Worker.FailingModuleStopsStage | cbmod/config/views/widgets/database.py:157-164 | when module `k` raises, no later hook is called, at most `k` values are reported, and the run ends in that error |
| Worker.CreateClearsFirst | cbmod/config/views/widgets/database.py:142-151 | CREATE clears before it creates and reports `FINISH * 0.5` in between; when clearing raises, create is not called and no midpoint is reported |
| Worker.DoneStageDoesNoWork | cbmod/config/views/widgets/database.py:165-168 | the DONE stage calls no collaborator and still reports START then DONE |
| SetupPage.AutoCommand | cbmod/config/views/wizard/database.py:344-378 | the page runs a stage by itself exactly on `(INIT, DONE)` and `(TEST, DONE)`, and that stage is the next one |
| SetupPage.PromptTargets | cbmod/config/views/wizard/database.py:351-371 | a question is installed exactly on `(LOAD, DONE)` and `(CREATE, DONE)`; yes runs the next stage, no runs DONE, and no stage runs by itself then |
| SetupPage.ProgressMessage | cbmod/config/views/wizard/database.py:341-383 | a status text is shown only for START or DONE of a stage; INIT to TEST show one at both START and DONE, the DONE stage only when finished |
| SetupPage.Page.constructor | cbmod/config/views/wizard/database.py:277-278 | a new page has no error, no command, no question, and blank icons and details for every stage |
| SetupPage.Page.InitializePage | cbmod/config/views/wizard/database.py:280-288 | showing the page runs INIT and changes nothing else |
| SetupPage.Page.ValidatePage | cbmod/config/views/wizard/database.py:302-309 | the page can be left exactly when no error occurred and the worker has stopped |
| SetupPage.Page.IsComplete | cbmod/config/views/wizard/database.py:311-315 | the page is complete iff the worker has stopped and the base page is complete |
| SetupPage.Page.OnStateProgress | cbmod/config/views/wizard/database.py:341-383 | a progress event sets the bar, the message and the icon, runs the automatic next stage and installs the question, as the decision functions say |
| SetupPage.Page.OnStateError | cbmod/config/views/wizard/database.py:317-339 | an error sets the failure flag, shows the error icon and headline with the cause, fills the bar and asks the worker to quit |
| SetupPage.Page.OnPromptAccept | cbmod/config/views/wizard/database.py:389-395 | yes runs the stored accept stage and hides the question; the stored answers stay |
| SetupPage.Page.OnPromptReject | cbmod/config/views/wizard/database.py:390-400 | no runs the stored reject stage and hides the question; the stored answers stay |
| SetupPage.OverallProgressBounds | cbmod/config/views/wizard/database.py:415-416 | the overall percentage lies in `[0, 100]` for every stage and phase |
| SetupPage.OverallProgressMonotone | cbmod/config/views/wizard/database.py:415-416 | the overall percentage never goes back as (stage, phase) advances |
| SetupPage.OverallProgressContinues | cbmod/config/views/wizard/database.py:415-416 | a finished stage and the next stage's start show the same percentage |
| SetupPage.IconChoice | cbmod/config/views/wizard/database.py:402-413 | DONE shows the ok icon, a negative phase the error icon, and START or a progress value leaves the icon alone |
| SetupPage.QuietEvents | cbmod/config/views/wizard/database.py:341-383 | START and intermediate progress events run no stage and install no question |
| SetupPage.RunReactions | cbmod/config/views/wizard/database.py:344-378 | over one stage run, the page runs a stage by itself only after a successful INIT or TEST, and then exactly the next one |
| SetupPage.RunPrompt | cbmod/config/views/wizard/database.py:351-371 | over one stage run, a question is installed only after a successful LOAD or CREATE; otherwise the stored question is kept |
| SetupPage.Terminal | cbmod/config/views/widgets/database.py:112-168 | the final event of a stage run is DONE iff the stage did not fail, and an error iff it did |
| SetupPage.TerminalIsLast | cbmod/config/views/widgets/database.py:112-168 | that final event is the last event the stage run emits |
| SetupPage.Advance | cbmod/config/views/wizard/database.py:341-400 | a next stage follows only a DONE event, and always lies beyond the current one |
| SetupPage.AdvanceTable | cbmod/config/views/wizard/database.py:344-400 | the transition table: after an error nothing runs; after DONE, INIT goes to LOAD, TEST goes to DONE, and LOAD and CREATE follow the next answer (yes: next stage, no: DONE); DONE ends |
| SetupPage.WorkflowOrdered | cbmod/config/views/wizard/database.py:341-400 | a workflow runs stages one at a time in strictly increasing order, and only its last stage can fail |
| SetupPage.NoStageFails | cbmod/config/views/widgets/database.py:111-168 | when every collaborator call returns, no stage fails and every stage ends in DONE |
| SetupPage.DoneEndsWorkflow | cbmod/config/views/wizard/database.py:379-381 | nothing runs after DONE |
| SetupPage.HappyPath | cbmod/config/views/wizard/database.py:344-381 | with every call returning and both questions answered yes, the stages INIT, LOAD, CREATE, TEST and DONE run in that order |
| SetupPage.ConnectFailureStops | cbmod/config/views/wizard/database.py:317-339 | when connecting fails, nothing runs after INIT |
| SetupPage.DeclineAfterLoad | cbmod/config/views/wizard/database.py:357-361 | answering no after LOAD runs DONE and nothing else |
| SetupPage.DeclineRecreate | cbmod/config/views/wizard/database.py:344-361 | declining to recreate the tables gives the run INIT, LOAD, DONE |
| SetupPage.CreateNeedsConsent | cbmod/config/views/wizard/database.py:357-361 | the destructive CREATE runs only after the first question was answered yes |
| SetupPage.TestNeedsConsent | cbmod/config/views/wizard/database.py:368-371 | TEST runs only after both questions were answered yes |
| Profiles.ProfileStore.Get | cbmod/config/views/wizard/database.py:182-185 | looking a name up finds the stored profile, or reports that it is not found |
| Profiles.ProfileStore.Save | cbmod/config/views/widgets/database.py:95 | saving stores the profile under its name and keeps every profile under its own name |
| Profiles.ProfileStore.Use | cbmod/config/views/wizard/database.py:208 | using a profile makes its name the one in use and changes no profile |
| DriverForms.Decimal | cbmod/config/views/widgets/database.py:72 | the port's text is a non-empty string of decimal digits |
| DriverForms.DecimalRoundTrip | cbmod/config/views/widgets/database.py:62-72 | reading back the decimal text of a port gives the port |
| DriverForms.ClampPort | cbmod/config/views/widgets/database.py:24-25 | the port spin box holds a value in `[0, 65535]` and keeps any value in range |
| DriverForms.Assigned | cbmod/config/views/widgets/database.py:54-62 | setting a field keeps the row well formed: a required box stays checked, and the spin box stays in range |
| DriverForms.Read | cbmod/config/views/widgets/database.py:64-72 | a row reads a value iff its box is checked |
| DriverForms.SetThenGetText | cbmod/config/views/widgets/database.py:54-70 | after setting a text field to non-empty text, the box is checked and the field reads that text |
| DriverForms.SetThenGetPort | cbmod/config/views/widgets/database.py:54-72 | after setting the port to a number in range, the box is checked and the port reads that number's text |
| DriverForms.ClearedRead | cbmod/config/views/widgets/database.py:54-62 | after clearing, an optional field reads None and a required field reads its default |
| DriverForms.SaveThenLoad | cbmod/config/views/widgets/database.py:91-94 | saving a row into a profile and loading it back reproduces what the row reads, unless an optional field was left checked and empty |
| DriverForms.DriverForm.constructor | cbmod/config/views/widgets/database.py:41-51 | the form has one row per declared field, each set to None |
| DriverForms.DriverForm.SetField | cbmod/config/views/widgets/database.py:54-62 | setting a field changes only that row; a field the driver does not ask for is ignored |
| DriverForms.DriverForm.GetField | cbmod/config/views/widgets/database.py:64-72 | a field reads a value iff the driver asks for it and its box is checked |
| DriverForms.DriverForm.SetProfile | cbmod/config/views/widgets/database.py:74-78 | loading a profile sets every field from it; a profile of another driver changes nothing |
| DriverForms.DriverForm.Clear | cbmod/config/views/widgets/database.py:80-82 | clearing sets every field to None and keeps the set of fields |
| DriverForms.DriverForm.Values | cbmod/config/views/widgets/database.py:84-89 | the values hold the driver and one entry per field the driver asks for, with a value exactly when that field's box is checked |
| DriverForms.DriverForm.SavedProfileReloads | cbmod/config/views/widgets/database.py:74-96 | saving the form into a profile and loading it back leaves every value unchanged, unless an optional field was checked but left empty |
| DriverForms.DriverForm.Filled | cbmod/config/views/widgets/database.py:91-94 | a saved profile takes the form's driver and every field's reading, and keeps its name, editability and other attributes |
| DriverForms.DriverForm.Save | cbmod/config/views/widgets/database.py:91-96 | saving stores the filled profile under its name, leaves the profile in use alone, and reports success |
| ProfilePages.ValidateInfo | cbmod/config/views/wizard/database.py:74-90 | a new profile is always valid; otherwise an empty or unknown name is invalid, and so is editing a non-editable profile |
| ProfilePages.InfoComplete | cbmod/config/views/wizard/database.py:92-96 | the page is complete exactly when it is valid and complete as any page |
| ProfilePages.NextPage | cbmod/config/views/wizard/database.py:98-105 | new and edit go to the profile page; select, or no choice, goes to the setup page |
| ProfilePages.SelectValidIffKnown | cbmod/config/views/wizard/database.py:78-90 | selecting is valid exactly when the name is non-empty and known |
| ProfilePages.EditValidIffEditable | cbmod/config/views/wizard/database.py:78-90 | editing is valid exactly when the name is non-empty, known and editable |
| ProfilePages.Resolve | cbmod/config/views/wizard/database.py:177-205 | a renamed or new profile carries the new name; an unchanged name reuses the selected profile |
| ProfilePages.ResolveCases | cbmod/config/views/wizard/database.py:177-205 | a taken new name is refused iff it differs from the selection; a missing selection is refused; otherwise the selection is reused, renamed, or a new profile of the current driver is made |
| ProfilePages.ChosenNameIsFree | cbmod/config/views/wizard/database.py:189-205 | a chosen name is never one that another profile already holds |
| ProfilePages.ValidateProfilePage | cbmod/config/views/wizard/database.py:177-210 | a refusal saves nothing; otherwise the chosen profile, filled from the form, is stored under the new name and put in use |
| RawConfig.Split | cbpos/mod/config/views/dialogs/raw.py:160 | splitting on commas always gives at least one part |
| RawConfig.SplitPrepend | cbpos/mod/config/views/dialogs/raw.py:160 | a comma-free prefix stays in the first part |
| RawConfig.JoinSplit | cbpos/mod/config/views/dialogs/raw.py:123 | splitting a comma join of one or more comma-free strings gives them back; an empty list comes back as one empty string |
| RawConfig.SpinValue | cbpos/mod/config/views/dialogs/raw.py:117-119 | the number editor holds a value in `[-sys.maxint, sys.maxint]` and keeps any value in range |
| RawConfig.Classify | cbpos/mod/config/views/dialogs/raw.py:105-135 | strings are tagged unicode, booleans bool (never int), ints and floats int, sequences of strings list, and everything else gets no tag |
| RawConfig.BuildRow | cbpos/mod/config/views/dialogs/raw.py:105-139 | a row carries the computed tag and the matching editor, and is enabled exactly when it has a tag |
| RawConfig.BuildRowAsWritten | cbpos/mod/config/views/dialogs/raw.py:136-137 | the row as built by the code carries `type(v)` as its tag, with the same editor and enabled state |
| RawConfig.Written | cbpos/mod/config/views/dialogs/raw.py:150-164 | a row is written iff it is enabled and tagged unicode, bool, int or list |
| RawConfig.SaveKeepsOthers | cbpos/mod/config/views/dialogs/raw.py:150-164 | an option without a row keeps its presence and value through `save` |
| RawConfig.SaveKeepsKeys | cbpos/mod/config/views/dialogs/raw.py:150-164 | `save` adds and drops no option |
| RawConfig.SaveRowsAt | cbpos/mod/config/views/dialogs/raw.py:150-164 | after `save`, each row's option holds what the row writes, or its old value for a disabled or untagged row |
| RawConfig.RemoveThenSave | cbpos/mod/config/views/dialogs/raw.py:166-170 | after an option is removed, a later `save` leaves it None |
| RawConfig.EnabledRowsAreSaved | cbpos/mod/config/views/dialogs/raw.py:105-164 | with the computed tag, every enabled row is written back, and a row is enabled exactly when its value is tagged |
| RawConfig.UntouchedSave | cbpos/mod/config/views/dialogs/raw.py:105-164 | an untouched row writes back its value as shown: strings as unicode, booleans unchanged, numbers as clamped floats, comma-free string lists unchanged |
| RawConfig.AsWrittenSaves | cbpos/mod/config/views/dialogs/raw.py:136-164 | as written, only unicode strings, booleans, ints and lists are written back |
| RawConfig.FloatEditLostAsWritten | cbpos/mod/config/views/dialogs/raw.py:115-158 | an edited float option keeps its old value as written, and takes the edit with the computed tag |
| RawConfig.SectionTab.constructor | cbpos/mod/config/views/dialogs/raw.py:97-101 | the tab shows the section, with one row per option in iteration order |
| RawConfig.SectionTab.InitUI | cbpos/mod/config/views/dialogs/raw.py:103-139 | `initUI` builds exactly one row per option, in the section's iteration order |
| RawConfig.SectionTab.Save | cbpos/mod/config/views/dialogs/raw.py:150-164 | `save` writes every row in order, as the section-level save function says, and keeps the rows |
| RawConfig.SectionTab.OnRemoveButton | cbpos/mod/config/views/dialogs/raw.py:166-170 | removing sets the option to None and disables the row's editor and button |

Several definitions carry no contract of their own. They are the reference
definitions that the rows above state properties of:
- `SetupPage.OverallProgress` (`setProgress`) is stated by the three
  `OverallProgress…` lemmas.
- `SetupPage.IconAfter` (the icon choice of `setMessage`) is stated by
  `IconChoice`.
- `SetupPage.ErrorHeadline` is the headline that `Page.OnStateError` shows.
- `SetupPage.Workflow` is stated by `WorkflowOrdered`, `HappyPath` and the
  lemmas after it.
- `SetupPage.Reactions` is stated by `RunReactions`.
- `Worker.StageCalls`, `Worker.ModuleEvents` and `Worker.ModuleCalls` are
  the traces that `RunStage`, `HookLoop` and the `Worker` lemmas state.
- `RawConfig.Join` is stated by `JoinSplit`.
- `RawConfig.SaveRows` is stated by `SectionTab.Save`, `SaveRowsAt`,
  `SaveKeepsKeys` and `SaveKeepsOthers`.
- `RawConfig.TypeOf` and `RawConfig.EditorFor` are parts of `BuildRow` and
  `BuildRowAsWritten`.
- `DriverForms.DecimalValue` (`int()` of digit text) is stated by
  `DecimalRoundTrip`.
- `DriverForms.Truthy` (`bool()` of a value) is part of `Assigned`.

## Findings

| source | as written | input that shows it | evidently intended | confidence | as-written member | corrected member |
|---|---|---|---|---|---|---|
| cbpos/mod/config/views/dialogs/raw.py:137 | the row stores `type(option_value)`, not the tag `tp` computed just above, and `save` dispatches on it | a float option `0.5` edited to `2.0` (see `RawConfig.FloatEditLostAsWritten`): `save` finds `float`, matches no branch, and the edit is lost; byte strings and tuples are lost the same way | store `tp`, so every enabled row is written back (`RawConfig.EnabledRowsAreSaved`) | high; not executed | RawConfig.BuildRowAsWritten | RawConfig.BuildRow |

The tab (`RawConfig.SectionTab`) uses the corrected row.

## Left out

- Qt threads, signals and the event loop. One stage run is a sequential call that appends its events. Only one stage runs at a time, because the Qt event loop delivers commands one by one.
- The collaborators are abstract outcomes in an `Env`. These are the database connector, the module registry, the profile and driver classes, and the configuration object. `Workflow` uses the same `Env` for every stage of one setup.
- The exception types are one `Cause`. The logger calls are left out.
- Progress values are `real`. Float rounding is not modelled, and neither is the progress bar's truncation to an integer.
- Widget construction, layouts, pixmaps, translation strings and the rendering of the exception in the error text are left out.
- `DatabaseProfileConfigWizardPage.initializePage` is not modelled, because its not-found branch reads an unbound profile. The same goes for `onDriverChoiceChanged`, `cleanupPage` and the information page's combo-box handlers.
- Module wiring is not part of this model: the loader, the menu entries, the dialog registration and the metadata.
- `RawConfigDialog`, `MainWidget` and `AddOptionDialog` are not part of this model, because they only pass calls through to the configuration object.
- Profiles.ProfileStore.Save: the persistence format belongs to the database layer. A renamed profile is stored under its new name, and the entry under its old name is kept.
- ProfilePages.Resolve: a new profile is taken to be editable, and its attributes start empty.
- ProfilePages.ValidateProfilePage: the new name is non-empty, because its field is mandatory (`database_profile_new_name*`). The user's answer to the "name taken" message box is not modelled.
- DriverForms.Accepts: the model accepts for the port only a number or a string of decimal digits; signed or space-padded text, which `int()` also reads, is not modelled. A text field shown `None` shows the empty string.
- Worker.SetupWorker.constructor: models construction together with the `start()` the setup page calls right after it (cbmod/config/views/wizard/database.py:282-283); the thread itself is not modelled.
- DriverForms.DriverForm.constructor: the checkbox and editor enabled states are not modelled.
- RawConfig.SpinValue: the number editor's rounding to two decimals is not modelled. `sys.maxint` is taken as that of a 64-bit build.
- RawConfig.EditorFor: the `repr` text shown in a disabled editor is not modelled (it is shown as empty), because such an editor is never saved.
- RawConfig.ConfigValue: Python 2 `long` values and other numeric types are not modelled.
- The user's edits to an editor are not a method; the lemmas take rows with any editor contents.
