# Repository-creation job of GitHub Classroom, in Dafny

This project models `AssignmentRepo::CreateGitHubRepositoryJob#perform`, the
background job that provisions a student's assignment repository, and proves
what one run promises and what a chain of retried runs promises.

The model follows the job in order:

- **Guard.** The job acts only when the invitation status is `waiting` or
  `errored_creating_repo`.
- **Opening.** It marks the invitation `creating_repo` and broadcasts that
  progress to the user's channel.
- **Creator steps.** It runs the Creator steps in order: verify capacity,
  create the repository, add the user as collaborator, and push starter code
  when the assignment has some.
- **Save.** It builds and saves the AssignmentRepo record. A validation
  failure is logged and re-raised as a `Creator::Result::Error` carrying
  `DEFAULT_ERROR_MESSAGE`.
- **Success branch.** It reports the timing and success metrics. Then it
  either marks the invitation `importing_starter_code` and enqueues the
  porter-status job, or marks it `completed`.
- **Rescue.** On a `Creator::Result::Error` it deletes whatever repository was
  created and logs the error. With retries left it goes back to `waiting` and
  re-enqueues itself with one retry fewer. Otherwise it marks the invitation
  errored, broadcasts the failure, and increments the one failure counter the
  message selects.

The model has these parts:

- **The outside world.** Everything outside the job is an input. A `World`
  record says what each external call would do if reached: succeed, return
  the new repository's id, or raise an error with a message.
- **Side effects.** Every side effect is an `Event` appended to a trace: status
  writes, broadcasts, Creator calls, the save, the delete, log lines, metrics
  and enqueued jobs.
- **The job.** The invitation status is the field of the class
  `InviteStatus`, and `Perform` updates it in place. `Perform` is proved to
  leave exactly the status and trace that the function `Attempt` specifies.
- **Properties.** All other properties are lemmas about `Attempt`.
- **Reference definitions.** `Plan`, `RunThrough` and `FirstFailure` give the
  order the Creator steps should run in and where a failure stops them. The
  job's calls are proved to follow them.
- **State machine.** `Legal` is the status transition graph. Every status
  write is proved to follow one of its edges.
- **Retry chain.** `RetryChain.Chain` composes runs: each run re-enqueued by
  the previous one starts from the status the previous one left.

Modules: `Environment` (inputs and the reference plan), `Effects` (statuses,
events, trace views), `CreateRepositoryJob` (the job and its specification),
`JobProperties` and `Outcomes` (properties of one run), and `RetryChain`
(properties of retried runs).

## Model

| member | source | states |
|---|---|---|
| CreateRepositoryJob.Perform | app/jobs/assignment_repo/create_github_repository_job.rb:21-95 | The invitation's final status and the trace of effects are exactly those of `Attempt` on the status found, so every lemma about `Attempt` holds for the job. |
| CreateRepositoryJob.RunCreatorSteps | app/jobs/assignment_repo/create_github_repository_job.rb:35-49 | The Creator calls and the save run as `Steps` says: in order, pushing only with starter code, stopping at the first that raises. A save failure adds the validation warning and becomes `DEFAULT_ERROR_MESSAGE`. The result carries the built repository id. |
| CreateRepositoryJob.FinishCreation | app/jobs/assignment_repo/create_github_repository_job.rb:51-70 | The success branch leaves the status and effects of `Finish`: metrics, then the import hand-off with the porter job, or completion with its broadcast. |
| CreateRepositoryJob.RescueCreatorError | app/jobs/assignment_repo/create_github_repository_job.rb:71-94 | The rescue leaves the status and effects of `Rescue`: delete and log, then either `waiting` and a re-enqueue with `retries - 1`, or the errored status, the failure broadcast and the classified counter. |
| CreateRepositoryJob.InviteStatus.Update | app/jobs/assignment_repo/create_github_repository_job.rb:27 | A status writer writes exactly the new status into the invitation's status field. |
| CreateRepositoryJob.Classify | app/jobs/assignment_repo/create_github_repository_job.rb:84-93 | The counter is always a failure counter. Each of the three known messages selects its own counter, in both directions. Every other message, the default message included, selects the generic counter. |
| Effects.CounterNamesDistinct | app/jobs/assignment_repo/create_github_repository_job.rb:52-92 | The five counter keys (the success key at line 53, the four failure keys at lines 86-92) are pairwise distinct, and none is the timing key of line 52. |
| Environment.PlanShape | app/jobs/assignment_repo/create_github_repository_job.rb:36-45 | The plan is verify, create, add collaborator, push starter code exactly when the assignment has some, then save. |
| Environment.RunThroughStopsAtFirstFailure | app/jobs/assignment_repo/create_github_repository_job.rb:35-49 | Running a plan executes a prefix of it, and every step but the last succeeds. The prefix is the whole plan exactly when nothing raises; otherwise it ends with the first failing step. |
| JobProperties.GuardRefusesQuietly | app/jobs/assignment_repo/create_github_repository_job.rb:24-26 | Any status other than `waiting` or `errored_creating_repo` makes the run a no-op: status unchanged, no effect at all. A status that passes the guard always produces effects. |
| JobProperties.CreatingRepoComesFirst | app/jobs/assignment_repo/create_github_repository_job.rb:26-36 | Past the guard, the first two effects are the `creating_repo` write and its "Creating repository" broadcast, and every Creator call comes after them. |
| JobProperties.CallsFollowPlan | app/jobs/assignment_repo/create_github_repository_job.rb:35-45 | Past the guard (a run started on `waiting` or `errored_creating_repo`), the steps called in the run are exactly the reference plan run up to and including its first failing step. |
| JobProperties.CallsOnCreatedRepo | app/jobs/assignment_repo/create_github_repository_job.rb:37-42 | In every run, each `add_user_to_repository!` and `push_starter_code!` call happens only after the repository was created, and is made on the created repository's id. |
| JobProperties.StepsRunThroughPlan | app/jobs/assignment_repo/create_github_repository_job.rb:35-49 | The steps succeed exactly when no plan step raises, and then they return the record built from the created id. On failure, the message is the failing step's and the id to delete is the created repository's (none before creation). |
| JobProperties.StatusWritesAreLegal | app/jobs/assignment_repo/create_github_repository_job.rb:26-78 | Every status write of a run takes an edge of the provisioning state machine, and the final status is the last one written. |
| JobProperties.CloseShape | app/jobs/assignment_repo/create_github_repository_job.rb:51-94 | Every ending, success or rescue, makes no Creator call and writes exactly one status, never `creating_repo`. |
| JobProperties.SaveFailsFirst | app/jobs/assignment_repo/create_github_repository_job.rb:36-46 | The save is the failing step exactly when every Creator step succeeds and the record is invalid. |
| JobProperties.ValidationWarning | app/jobs/assignment_repo/create_github_repository_job.rb:44-48 | The validation error is logged once when the save is the failing step, and never otherwise. |
| Outcomes.StepsEnd | app/jobs/assignment_repo/create_github_repository_job.rb:35-49 | The steps end with a record exactly when nothing raises, and the record holds the created repository's id and the user. Otherwise they end with the first failing step's message and the id to delete. |
| Outcomes.SuccessEnding | app/jobs/assignment_repo/create_github_repository_job.rb:51-70 | On full success, timing and success are reported once each. With starter code, the status ends `importing_starter_code`, the "Importing starter code" progress is broadcast once, the porter job is enqueued once for the saved record, and `completed` is never written. Without it, the status ends `completed` with one completion broadcast and no porter job. Nothing is deleted, no failure is counted or broadcast, and nothing is re-enqueued. |
| Outcomes.SaveThenMetrics | app/jobs/assignment_repo/create_github_repository_job.rb:45-53 | On full success, the record with the created id is saved, and the timing sample and the success counter come right after the save. |
| Outcomes.FailureCleansUp | app/jobs/assignment_repo/create_github_repository_job.rb:71-73 | On failure, the delete is called exactly once, with the created repository's id or with nil when creation had not happened, and never with any other argument. The error is logged once, and no success metric or porter job is issued. |
| Outcomes.DeleteAfterCalls | app/jobs/assignment_repo/create_github_repository_job.rb:71-94 | On failure, the rescue comes after every step call of the run, in source order, and ends the trace. First the delete of the created repository (or nil), then the log line with the failing step's message, then the status write. With retries left, the re-enqueue with `retries - 1` comes last, so the delete and the `waiting` write both precede it. Without retries, the failure broadcast and then the classified counter come last. |
| Outcomes.RetryWithBudget | app/jobs/assignment_repo/create_github_repository_job.rb:74-76 | On failure with `retries > 0`, the status ends `waiting`, which passes the guard again. The run re-enqueues itself exactly once with `retries - 1` and makes no other re-enqueue. It writes no errored status, increments no counter, and broadcasts no failure. The order of these effects (delete, `waiting`, then the re-enqueue) is stated by `Outcomes.DeleteAfterCalls`. |
| Outcomes.TerminalFailure | app/jobs/assignment_repo/create_github_repository_job.rb:77-93 | On failure with no retries left, the status ends errored. Exactly one failure broadcast goes to the user, with the step's message. Exactly the counter `Classify` selects is incremented, once, and nothing is re-enqueued. |
| Outcomes.SaveFailureIsGeneric | app/jobs/assignment_repo/create_github_repository_job.rb:44-49 | When the save fails, the repository had been created. The validation error and `DEFAULT_ERROR_MESSAGE` are logged once each, and the created repository is deleted. If no retries are left, the generic failure counter is incremented. |
| Outcomes.ValidationWarningOnce | app/jobs/assignment_repo/create_github_repository_job.rb:44-48 | Across a whole run past the guard (started on `waiting` or `errored_creating_repo`), the validation warning appears once exactly when the save is the failing step. |
| Outcomes.FinalStatus | app/jobs/assignment_repo/create_github_repository_job.rb:55-78 | Past the guard, the final status is `importing_starter_code` or `completed` on success (decided by starter code). On failure it is `waiting` while retries remain and `errored_creating_repo` otherwise. |
| Outcomes.NextRun | app/jobs/assignment_repo/create_github_repository_job.rb:26 | After a run, the next run gets past the guard exactly when this one failed. After a success every later run is a no-op. |
| RetryChain.RetryDecision | app/jobs/assignment_repo/create_github_repository_job.rb:74-76 | A run re-enqueues itself exactly when it passed the guard, failed, and had retries left. |
| RetryChain.AttemptWritesOnce | app/jobs/assignment_repo/create_github_repository_job.rb:53 | One run increments the success counter at most once and writes the errored status at most once. |
| RetryChain.ChainIsBounded | app/jobs/assignment_repo/create_github_repository_job.rb:74-76 | A chain of re-enqueued runs makes at most `retries + 1` runs, counting a negative budget as 0. |
| RetryChain.ChainProvisionsOnce | app/jobs/assignment_repo/create_github_repository_job.rb:53 | Across a whole chain, the success counter is incremented at most once and the errored status is written at most once. |
| RetryChain.ChainSettles | app/jobs/assignment_repo/create_github_repository_job.rb:55-78 | A chain started on `waiting` or `errored_creating_repo`, with a world available for every run it may make (more worlds than `max(retries, 0)`), ends imported, completed or errored, never `waiting` or `creating_repo`. |
| RetryChain.ExhaustedRetries | app/jobs/assignment_repo/create_github_repository_job.rb:74-78 | A chain started on `waiting` or `errored_creating_repo`, with budget `retries >= 0` and a world for each run (more than `retries` worlds), in which every run fails, makes exactly `retries + 1` runs and ends errored. |

## Left out

- The Creator's GitHub calls are not modelled. Each step here only succeeds, returns an id, or raises with a message from `World`.
- The Creator's error constants are not part of this model. They are distinct symbolic values, and `Unlisted` stands for any other message.
- The outside world is an input. ActionCable, statsd and the logger are reduced to trace events.
- The timing value is left out. It is wall-clock float arithmetic with `Time.zone.now`, so only the fact that a timing sample is issued is kept.
- ActiveRecord persistence and uniqueness validation are not modelled. `save!` either succeeds or raises `RecordInvalid`.
- The lookup `assignment.invitation.status(user)` is not modelled. The status it finds is the `InviteStatus` object handed to `Perform`.
- The invitation-status enum file is not part of this model. Its five statuses are taken from the job's writers and guard.
- `perform_later` queue semantics are left out, and so is `PorterStatusJob`. They are enqueue events. `RetryChain.Chain` runs each re-enqueued job directly on the status left behind, with its own world.
- Concurrency is left out, including the check-then-act race between the guard on line 26 and the write on line 27. Each run is sequential.
- Exceptions other than `Creator::Result::Error` are outside the contract. They escape `perform` in the source.
- The constant `ADDING_COLLABORATOR` (line 6) is never used by the job, so it is not modelled.

Behaviour of the code that the model keeps as written:

- The code never checks a status write against a transition graph. `Legal` is proved of the job's writes instead.
- The code sends a capacity failure down the same retry path as every other failure. It counts as generic unless its message is one of the three known ones.
- The code retries a save failure like any other error.
- The code does not broadcast the return to `waiting`.
- The code calls the delete with nil when the failure comes before creation.
