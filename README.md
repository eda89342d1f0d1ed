# Autolab schedulers controller: log framing, test-run verdict, validate-before-commit

Autolab lets an instructor attach "schedulers" to a course: an action file
(Ruby code defining `Updater.update(course)`) that is run periodically. The
schedulers controller creates, updates and destroys these records and runs an
action on demand. This project models the three pieces of sequential logic in
that controller:

1. **Log framing.** A run forks a child process that loads the action file and
   calls `Updater.update`. The child turns the result into one text block: a
   "Script Output" block around a textual result, nothing for a non-textual
   result, and a "Script Error Output" block (course name, message, backtrace
   frames joined by a newline and a tab) for a caught `ScriptError` or
   `StandardError`. `visual_run` puts an `Executing <path>` line before that
   block and a `Completed running action.` line after it; when, with the
   pipe already open, the fork, the draining read or the wait raises, it puts
   a separate "Error Output" block in its place. Module `RunLog` holds the
   exact strings as functions (`ChildLog`, `InfraLog`, `VisualLog`) and the
   step-by-step appends as methods (`WriteChildLog`, `VisualRun`).
2. **Test-run verdict.** `test_run_visual_scheduler` drains the child's block
   and raises unless it includes the substring `Error`. This is the reverse of
   what its comment suggests: a clean textual run without that word and a run
   that writes nothing both make it raise, while every caught error passes,
   because the label "Script Error Output" itself contains "Error". The model
   keeps the code's behaviour; `RunLog.TestRunVerdict` states it case by case.
   A failure to open the pipe or to fork is not rescued there, so it raises
   too.
3. **Validate before commit.** Class `Schedulers.SchedulersController` holds
   the schedulers table as a map from id to record, plus the next id the
   database will hand out. `Create` checks the action file, saves, test-runs,
   and destroys the new record if the test run raises; `Update` checks the
   action file, snapshots the record, applies the parameters, test-runs, and
   writes the snapshot back if the test run raises; `Destroy` removes one
   record. Their contracts state the whole new table: after any rejection it
   equals the table before the call, and no other record ever changes.

`Strings` models the two library calls the logic depends on: `String#include?`
as `Contains` (proved equivalent to "occurs at some position") and
`Array#join` as `Join`.

What the operating system, the filesystem and the database decide is passed in:
how the run ends is a `RunOutcome` (`Ran` with the child's `ActionOutcome`, or
`InfraFail`), the file check is the boolean `actionReadable`, and whether
validation lets a save or update through is `saveSucceeds` / `updateSucceeds`.
A request's permitted parameters are a `Params` value in which each attribute
is left out, given as nil, or given a value; a given parameter, nil included,
overwrites the attribute, and a new record starts from the column defaults.
The resolved action path and the course name are opaque strings.

## Model

| member | source | states |
|---|---|---|
| `RunLog.WriteChildLog` | app/controllers/schedulers_controller.rb:167-182 | the child's appends produce exactly the block for its outcome: header, text and trailer for a textual result; nothing for a non-textual result or a child that never reaches `write.print`; error label, course-and-message line, frames joined by newline-tab and the four-dash closing label for a caught error |
| `RunLog.ScriptOutputDecodes` | app/controllers/schedulers_controller.rb:75-79 | the child's block is a "Script Output" block exactly when the action returned text, and stripping its labels gives that text back unchanged |
| `RunLog.RaisedLogNamesCourse` | app/controllers/schedulers_controller.rb:80-84 | a caught error's block includes `Error in '<course>' updater: <message>` |
| `RunLog.VisualRun` | app/controllers/schedulers_controller.rb:62-99 | once the pipe is open, `visual_run`'s appends produce the `Executing` line, then the child's block or the setup-failure block, then the completion line |
| `RunLog.VisualLogFrame` | app/controllers/schedulers_controller.rb:66-99 | for every run that ends, once the pipe is open and with a resolvable action path, the visual log starts with `Executing <path>` and a newline, ends with a newline and `Completed running action.`, and holds exactly the child's block or the "Error Output" block in between; this follows directly from the definition of `VisualLog` and is stated as a reading aid |
| `RunLog.InfraLogDistinct` | app/controllers/schedulers_controller.rb:93-98 | the log of a run whose fork, read or wait raised after the pipe was opened differs from the log of every run in which the child ran, whatever the child did |
| `RunLog.ScriptOutputMarker` | app/controllers/schedulers_controller.rb:171-175 | the "Script Output" labels neither add nor hide an `Error`: the block includes it exactly when the action's text does |
| `RunLog.ScriptErrorMarker` | app/controllers/schedulers_controller.rb:176-180 | every "Script Error Output" block includes `Error`, whatever the message and backtrace |
| `RunLog.TestRunVisualScheduler` | app/controllers/schedulers_controller.rb:159-191 | the test run raises exactly when `TestRunFails` holds: setup failed, or the drained block does not include `Error` |
| `RunLog.TestRunVerdict` | app/controllers/schedulers_controller.rb:190 | the test run raises if and only if setup failed, the child wrote nothing (non-textual result or uncaught exit), or the action's text lacks `Error`; a caught error never makes it raise |
| `Strings.ContainsIffOccurs` | app/controllers/schedulers_controller.rb:190 | the left-to-right scan standing for `include?` finds the substring exactly when it occurs at some position |
| `Schedulers.SchedulersController.Create` | app/controllers/schedulers_controller.rb:24-49 | no action parameter crashes, an unreadable action file or a refused save is reported, a raising test run destroys the new record; every outcome other than success leaves the table equal to the table before; the request succeeds exactly when the action is given, the file is readable, the save passes and the test run does not raise, and then adds exactly one record, the defaults with the parameters assigned, under a new id |
| `Schedulers.SchedulersController.Update` | app/controllers/schedulers_controller.rb:104-133 | a bad action file or a refused update changes nothing, a missing record crashes, a raising test run writes the snapshot back so the table equals the table before; the request succeeds exactly when the action is given, the file is readable, the record exists, the update passes and the test run does not raise, and then only that record changes, each given parameter (nil included) overwriting its attribute |
| `Schedulers.SchedulersController.Destroy` | app/controllers/schedulers_controller.rb:136-145 | removes the record with that id if there is one and reports it; with no such record the request crashes while building its redirect and the table is unchanged; no other record changes |

## Left out

- Forking, the pipe, `read.read` and `Process.wait2`: operating-system mechanics. How a run ends is an input (`RunOutcome`); the child's exit status is ignored, as in the code.
- `IO.pipe` raising in `visual_run` (line 65, before its `begin`): the exception leaves the action and no log is built, so `VisualRun` covers only runs in which the pipe was opened. In `test_run_visual_scheduler` nothing is rescued, so a pipe failure raises exactly as `InfraFail` does and is passed in as one.
- A run that never ends: no timeout is set, so an action that hangs keeps the parent blocked in `read.read` (lines 90 and 186) for good. `visual_run` then builds no log, and in `create` and `update` the saved or updated record is already in the table while the test run is in progress, and stays there if the worker is killed. Every `RunOutcome` is a run that ended, and the table is modelled only before and after each request.
- A stored scheduler whose action is nil in `visual_run`: `Rails.root.join(nil)` at line 66 raises after the pipe is open but before the `begin` at line 67, so no log is built. `VisualRun` takes the resolved path as a string and so covers only records with an action path.
- `require` of the action file and `Updater.update`: foreign code loaded at run time. Only its result is modelled (`ActionOutcome`), and any side effect it has on course data is not.
- A result whose `to_str` raises while it is being appended (the block would then hold the "Script Output" header followed by an error block): the conversion is foreign code and is treated as total.
- `File.exist?`, `File.readable?` and `Rails.root.join`: filesystem access. The check is the boolean `actionReadable` and the resolved path an opaque string.
- ActiveRecord's save, update, destroy and validations: the table is a map, and whether validation passes is a parameter. The record destroy in `create`'s rescue and the snapshot write in `update`'s rescue are taken to succeed, since the code ignores their results.
- Schedulers.SchedulersController.Destroy: does not model a destroy refused by a model callback, because the Scheduler model is not part of this model.
- Timestamps ActiveRecord maintains (`created_at`, `updated_at`) and the meaning of `next`, `until` and `interval`: opaque attribute values.
- `params.require(:scheduler)` raising for a request without scheduler parameters: routing-level input validation, not part of the modelled logic.
- The flash messages, redirects, rendering, breadcrumbs, authorisation levels and the read-only actions `index`, `show`, `new`, `edit` and `run`: user interface and routing. Outcomes are reported as a `Response` value instead.
- The due check that decides when a scheduler fires, and running the same scheduler from two requests at once: neither is in this controller.
