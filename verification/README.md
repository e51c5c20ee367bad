# Verified model of Chickpea's shell reader, turn relay and runtime plans

This project models six parts of Chickpea, the Slack agent, and proves what they
are for. Each part is a specification (functions on values) with laws proved about
it; where the program works by changing things step by step there is also an
imperative form, a class or a method with loops, proved to compute the
specification.

- **Reading shell commands and curl** (`src/activity/curl-request-urls.ts`).
  `ShellSyntax` says what one turn of the scanner does to the text still to be read;
  `ShellScanner` is the scanner with its cursor and its fields, proved equal to it.
  `ShellQuoting` prints any words in any mixture of bare, escaped, single- and
  double-quoted segments, with redirections anywhere, and proves that reading gives
  them back. `ShellLaws` proves that scripts compose and that here-documents are
  opaque; `ShellRules` says in plain text what joins or ends a word and what makes a
  source unreadable. `CurlSyntax` and `CurlReader` do the same for curl's arguments;
  `CurlLaws` proves that the spellings of an option agree, and `CurlSpelling` that a
  command reads as what its options mean, however they are written.
- **The turn relay** (`src/cloudflare.ts`). `RelayModel` is a transition system. A
  step is the code between two awaits of the alarm handler, of one of its workers or
  of an RPC, or a crash, the platform's re-fire, an operator's act or a row changed by
  someone else. `RelayJob`, `RelayGrouping` and `RelayInvariant` prove one invariant
  step by step; `RelayRuns` puts the steps together into runs from an empty store;
  `RelayLaws` and `RelayWakeUps` draw the laws over every run from it; `RelayOutcomes`
  and `RelayEvents` say exactly what each step comes to and that nothing else changes;
  `RelayWitnesses` holds runs that reach the limits of those laws.
- **The runtime plan** (`src/agents/runtime-plan.ts`). `CanonicalJson` proves that
  the canonical text of a JSON value is the text of no other value, and `JsonReading`
  that it reads as that value. `RuntimePlan` is the compiler and the parser,
  `PlanNormalForm` proves that they agree, `PlanCompiling` what a compiled plan holds,
  `PlanParsing` exactly which JSON values are read as which plan, and `PlanIdentity`
  what a plan's derived names tell apart and what they ignore.
- **Projection and repository access** (`src/agents/slack-thread.ts`): `Projection`
  and `RepositoryAccess`.
- **The activity catalog** (`src/activity/status.ts`): `ActivityCatalog`.
- **Memory scopes** (`src/admin/memory-api.ts`): `MemoryScopes`, and `MemoryListing` for
  what is listed.

`Prelude`, `Sorting` and `OrderedMaps` are shared vocabulary: the first place of a
character, sorting by a key, and the source language's insertion-ordered `Map`.

## Where the program does less than its comments say

- *Lost wake-ups.* `enqueueTurn` writes the row before it arms the alarm. If the
  object dies in between, the job is pending with nothing left to wake it
  (`RelayWakeUps.CrashBeforeArmingStrands`). `RelayWakeUps.WakeUpIsLostExactly` says
  that no other step takes a pending job's wake-up away than a crash with no alarm armed
  and no handler running, and `RelayWakeUps.StrandedExactly` that over any run a pending
  job is without a wake-up exactly when such a crash stranded it and since then no RPC
  has armed the alarm and none that covers the job has begun. A maintenance pass, or the
  same event enqueued again, heals it (`RelayWakeUps.MaintenanceHeals`).
- *Attempts.* A comment in `runJob` (`src/cloudflare.ts:1255-1256`) says that counting
  the attempt before the turn bounds retries across a crash. The count is only
  compared to a cap when a turn fails by itself, so a job whose turn brings the object
  down is run as often as that happens (`RelayWitnesses.CrashesUnboundRuns`, for every
  pair of caps). `RelayLaws.RunsAreBounded` is the bound that does hold, the job's cap
  plus the attempts that ended outside the caps, and `RelayWitnesses.BoundIsAttained`
  shows that it cannot be lowered.
- *Order in a conversation.* If `runTurn` returned without having delivered, its job
  would stay pending while the group went on. No path of today's `runTurn` does that;
  `RelayLaws.TurnsStartInOrder` names this case, and an operator's retry, as the only
  exceptions, and `RelayLaws.FirstInFirstOut` has none. The retry is reachable: reopened
  while the next job of its conversation is being prepared, a job is overtaken
  (`RelayWitnesses.ReopenedIsOvertaken`).
- *Active-work marks.* A job can be put in recovery from outside while a drain has it
  in hand, by the recovery RPC or by the retention backstop that every enqueue runs. If
  `runJob` then returns by a branch that clears no mark, the job is no longer pending
  and its mark is left on: an identity preflight that asks for a retry, a direct
  message's policy that cannot be read, or a turn that fails by itself before it was
  dispatched and below its cap (and a `runTurn` that returned undelivered, if there were
  one). `RelayLaws.MarkIsLeftOnReturnExactly` states that these are exactly the cases,
  and `RelayWitnesses.RecoveryLeavesMark` is such a run.
- *Projection.* Compiling drops an empty header prefix and projecting compares it, so
  a plan does not project onto the very profile it was compiled from exactly when an
  eligible API connection has the empty text as its prefix
  (`Projection.CompiledPlanProjects`).
- *Quoting.* Inside double quotes a backslash goes away before every character, not
  only before the five of section 2.2.3 of the POSIX Shell Command Language
  (`ShellQuoting.DoubleQuotedBackslashGoesAway`); and a here-document may end with the
  source, without the newline of section 2.7.4 (`ShellLaws.SkippedIsBody`).

## Model

| member | source | states |
|---|---|---|
| `ShellScanner.Scanner.FinishWord` | src/activity/curl-request-urls.ts:337-357 | ends the word under way in place: an argument, a redirection target or a here-document's delimiter, as the specification does |
| `ShellScanner.Scanner.FinishCommand` | src/activity/curl-request-urls.ts:358-369 | ends the command in place; a command of no words and no output is none |
| `ShellScanner.Scanner.BeginRedirection` | src/activity/curl-request-urls.ts:370-384 | opens a redirection in place; digits that touch the operator are a descriptor and no argument |
| `ShellScanner.Scanner.Turn` | src/activity/curl-request-urls.ts:386-484 | one turn of the loop: the new cursor is past the old one and within the source, and the fields and the text left are those of the specification's step |
| `ShellScanner.ConsumeHereDocument` | src/activity/curl-request-urls.ts:496-511 | the inner scan: it leaves the text below the first line that equals the delimiter, or fails when there is none |
| `ShellScanner.ConsumeHereDocuments` | src/activity/curl-request-urls.ts:491-514 | the queued documents are consumed one after the other |
| `ShellScanner.ParseShellCommands` | src/activity/curl-request-urls.ts:326-489 | the whole loop, which ends because every turn moves the cursor forward, computes `ShellSyntax.Parse` |
| `ShellSyntax.Step` | src/activity/curl-request-urls.ts:386-484 | every jump of the scanner goes strictly forward and stays in the source: what is left is a proper suffix |
| `ShellSyntax.SkipDocs` | src/activity/curl-request-urls.ts:491-514 | what the here-documents leave is a suffix of the source |
| `ShellQuoting.RoundTrip` | src/activity/curl-request-urls.ts:326-489 | for every list of commands, whatever their words say, however each word is quoted and wherever redirections (with or without a descriptor) stand, reading the printed script gives exactly those commands and redirection flags |
| `ShellQuoting.PosixRoundTrip` | src/activity/curl-request-urls.ts:386-416 | any words at all, printed in single quotes the POSIX way, are read back as those words |
| `ShellQuoting.DoubleQuotedBackslashGoesAway` | src/activity/curl-request-urls.ts:401-406 | between double quotes a backslash is dropped before any character but a newline, where both go |
| `ShellLaws.ScriptsCompose` | src/activity/curl-request-urls.ts:326-514 | two scripts joined by a newline: the first one's commands and then the second one's, and unreadable exactly when the second is |
| `ShellLaws.ScriptThenText` | src/activity/curl-request-urls.ts:326-514 | after a script that left here-documents open, the text first feeds those and what they leave is read as a script of its own |
| `ShellLaws.HereDocsAreOpaque` | src/activity/curl-request-urls.ts:445-468 | two scripts that differ only in what their here-documents say have the same commands |
| `ShellLaws.SkipsBodies` | src/activity/curl-request-urls.ts:491-514 | queued documents are consumed in order, each through its first matching line |
| `ShellLaws.SkippedIsBody` | src/activity/curl-request-urls.ts:496-511 | conversely, what a document consumed is lines none of which matches and then one that does, which may be the last of the source |
| `ShellLaws.UnendedDoc` | src/activity/curl-request-urls.ts:498-511 | a document whose delimiter never comes makes the source unreadable |
| `ShellLaws.CommentSaysNothing` | src/activity/curl-request-urls.ts:430-438 | a comment is skipped, whatever its text, up to its newline |
| `ShellLaws.ContinuationSaysNothing` | src/activity/curl-request-urls.ts:395-429 | a backslash at the end of a line joins it to the next |
| `ShellRules.SubstitutionIsRefused` | src/activity/curl-request-urls.ts:400-413 | at every point outside single quotes, `$(` and a backquote are refused, whatever follows |
| `ShellRules.GroupingIsRefused` | src/activity/curl-request-urls.ts:481 | at every point outside quotes, so are parentheses and braces |
| `ShellRules.NoSubstitution` | src/activity/curl-request-urls.ts:400-413 | a source with `$(` or a backquote outside single quotes is unreadable, whatever readable text stands before it and whatever script above it |
| `ShellRules.NoSubstitutionInArgument` | src/activity/curl-request-urls.ts:400 | in particular inside a double-quoted argument, behind any words and redirections |
| `ShellRules.NoGrouping` | src/activity/curl-request-urls.ts:481 | so is one with an unquoted parenthesis or brace |
| `ShellRules.HereStringIsRefused` | src/activity/curl-request-urls.ts:446 | so is, at any point outside quotes, a here-string |
| `ShellRules.LastBackslashIsRefused` | src/activity/curl-request-urls.ts:414-415 | and a backslash that ends the source |
| `ShellRules.UnclosedQuote` | src/activity/curl-request-urls.ts:486 | and a quote of either kind that is not closed |
| `ShellRules.RedirectionsDoNotNest` | src/activity/curl-request-urls.ts:370-374 | a redirection that begins while another waits for its target makes the source unreadable, whatever follows |
| `ShellRules.BlankEndsWord` | src/activity/curl-request-urls.ts:337-357 | each of ECMAScript's white-space characters but the newline ends the word under way, as an argument, a target or a delimiter, of which the last two must not be empty; and does nothing between words |
| `ShellRules.OtherJoinsWord` | src/activity/curl-request-urls.ts:430-483 | any other character that does not quote, redirect or separate joins the word: a hash inside a word, a dollar before anything but a parenthesis |
| `ShellRules.OtherJoinsDoubleQuoted` | src/activity/curl-request-urls.ts:395-411 | between double quotes every character joins the word, but for the quote, the backslash and what opens a substitution |
| `ShellRules.RedirectionOpens` | src/activity/curl-request-urls.ts:439-458 | what each operator opens and whether it writes; the word that touches it is an argument unless it is all digits, however quoted; `<<-` alone strips tabs |
| `ShellRules.SeparatorEndsWord` | src/activity/curl-request-urls.ts:459-475 | a separator, and the end of the source, end the word before them as a blank does |
| `ShellRules.SeparatorEndsCommand` | src/activity/curl-request-urls.ts:358-369 | between words a separator, or the end, makes a command of the words and the output flag, none of nothing, and refuses a redirection without its target |
| `ShellRules.DelimiterLineEnds` | src/activity/curl-request-urls.ts:502-506 | the delimiter, behind any number of tabs for `<<-` only, with or without one carriage return, ends its here-document |
| `ShellRules.EndsAtDelimiter` | src/activity/curl-request-urls.ts:502-506 | conversely, a line that ends a here-document is such a line |
| `ShellRules.HereDocRoundTrip` | src/activity/curl-request-urls.ts:445-514 | a command with a here-document, any body for its delimiter and any text below: the command is read as if it stood alone, and the text as a script of its own |
| `CurlReader.ApplyShortCurlOptions` | src/activity/curl-request-urls.ts:256-290 | the letters of a short option change the transfer in place as the specification says, and the next index is the word after those used |
| `CurlReader.ApplyLongCurlOption` | src/activity/curl-request-urls.ts:194-237 | the same for a long option with its value in the word or after it |
| `CurlReader.CurlRequestsFromArgs` | src/activity/curl-request-urls.ts:163-254 | the argument loop, with its transfer changed in place, computes `CurlSyntax.CurlRequests` |
| `CurlReader.ExtractCurlRequests` | src/activity/curl-request-urls.ts:141-157 | the loop over the commands of a script computes the specification and gives up with the first command it cannot read |
| `CurlLaws.NextConcatenates` | src/activity/curl-request-urls.ts:168-193 | after an accepted argument list, `--next` is accepted exactly outside `--` and after a URL, and then the requests are those of both sides read alone |
| `CurlLaws.InlineValueIsNextWord` | src/activity/curl-request-urls.ts:194-237 | at any option position `--flag=value` and `--flag value` are read alike |
| `CurlLaws.NoValueRefusesInline` | src/activity/curl-request-urls.ts:194-213 | a flag without a value refuses one in its word |
| `CurlLaws.AttachedValueIsNextWord` | src/activity/curl-request-urls.ts:256-290 | a short option's value reads alike in its word and in the next one |
| `CurlLaws.ClusterSplits` | src/activity/curl-request-urls.ts:256-290 | short flags without a value may be split off the front of a short option, when what remains does not start with a dash |
| `CurlLaws.ShortSpellsLong` | src/activity/curl-request-urls.ts:194-290 | the short and long spellings of the options that shape a request change the transfer alike |
| `CurlLaws.TablesFit` | src/activity/curl-request-urls.ts:15-121 | the program's own option tables meet the conditions of the laws above |
| `CurlLaws.MethodOfTransfer` | src/activity/curl-request-urls.ts:296-307 | the method is the explicit one; else it is undecided exactly when the flags ask for two kinds of request, and each kind alone has its own |
| `CurlLaws.RequestsCompose` | src/activity/curl-request-urls.ts:141-157 | the requests of two scripts joined by a newline are those of the one and then of the other |
| `CurlLaws.QuotedCurlCommand` | src/activity/curl-request-urls.ts:141-157 | quoting any arguments after `curl` and extracting gives what those arguments ask for |
| `CurlSpelling.RoundTrip` | src/activity/curl-request-urls.ts:163-307 | however options are spelled and clustered, and wherever URLs stand, also behind `--`, a command asks for its URLs in order, in their normal form, with the method its options mean, and for none if they mean two kinds of request |
| `CurlSpelling.OptionOfUrl` | src/activity/curl-request-urls.ts:256-307 | `-I` asks for a HEAD, `-G` for a GET, `-T` for a PUT, `-d` and `-F` for a POST |
| `CurlSpelling.MethodOfUrl` | src/activity/curl-request-urls.ts:256-311 | `-X` asks for its method in capitals, and is refused for a word that is no token |
| `CurlSpelling.RefusedUrl` | src/activity/curl-request-urls.ts:313-320 | a word that stands for a URL and is no https URL is refused, wherever it stands |
| `CurlSpelling.RefusedFlag` | src/activity/curl-request-urls.ts:199-213 | so is an unknown long option, and --config, with or without a value |
| `CurlSpelling.RefusedWithoutValue` | src/activity/curl-request-urls.ts:215-217 | so is a long option whose value is missing or empty |
| `CurlSpelling.RefusedLetter` | src/activity/curl-request-urls.ts:268-274 | so is a short option whose value is missing or empty, and -K whatever follows |
| `CurlSpelling.RefusedValue` | src/activity/curl-request-urls.ts:219-227 | so are a --url that is no URL and a --request that is no token |
| `CurlSpelling.AssignmentAssigns` | src/activity/curl-request-urls.ts:322-324 | an assignment is a name of letters, digits and underscores, an equals sign and any text |
| `CurlSpelling.WhatRunsCurl` | src/activity/curl-request-urls.ts:146-152 | leading assignments and one `command` are passed over, then `curl` is run with the words behind it, and any other command asks for nothing |
| `CurlSpelling.ExtractsEach` | src/activity/curl-request-urls.ts:141-157 | extraction fails exactly when the script is unreadable or one of its curl commands is |
| `RelayGrouping.ListIsOldestFirst` | src/slack/turn-jobs.ts:230-246 | a pending job is listed, or the list is full of older ones |
| `RelayGrouping.GroupByConversation` | src/cloudflare.ts:1439-1449 | the grouping loop computes the Map from a conversation to its listed jobs |
| `RelayGrouping.GroupedByThread` | src/cloudflare.ts:1439-1449 | a conversation has a group exactly when it has a listed job, and its group is all of them in order |
| `RelayGrouping.FireKeepsInv` | src/cloudflare.ts:1153-1180 | when the alarm fires, the groups, the workers and the listed jobs are as the invariant says, and with nothing pending no wake-up is lost |
| `RelayEvents.WorkerGoesOn` | src/cloudflare.ts:1450-1463 | a worker goes on with its group after a job that let it, and else takes the next group or stops |
| `RelayEvents.DrainBegins` | src/cloudflare.ts:1153-1160 | the alarm fires when armed and no handler runs; with nothing pending the drain is empty, else min(4, groups) workers each begin a group of their own |
| `RelayEvents.DrainEnds` | src/cloudflare.ts:1464-1479 | the drain ends when every worker has stopped, and the alarm is armed again exactly if a retry was asked for, a job is pending or other work is left; an empty drain has only the last to ask |
| `RelayEvents.GroupsHoldPending` | src/cloudflare.ts:1439-1449 | a group holds pending jobs of one conversation, as their rows say, oldest first |
| `RelayEvents.PendingIsGrouped` | src/cloudflare.ts:1439-1449 | a pending job has its place in a group, unless the batch is full of older ones |
| `RelayEvents.GroupsStandOldestFirst` | src/cloudflare.ts:1439-1449 | groups are of different conversations and stand in the order of their oldest jobs |
| `RelayEvents.JobIsEnqueued` | src/cloudflare.ts:1100-1117 | a new row is pending without attempts, marked if its turn carries an intent to work |
| `RelayEvents.RpcBegins` | src/cloudflare.ts:1080-1117 | a repeated enqueue covers its job, and a maintenance pass with work to do every pending job |
| `RelayEvents.RpcEnds` | src/cloudflare.ts:1100-1117 | an RPC arms the alarm unless it is armed |
| `RelayEvents.JobsAreReopened` | src/cloudflare.ts:945-953 | an operator's retry makes jobs in recovery pending, and no others |
| `RelayEvents.JobIsSetAside` | src/cloudflare.ts:945-953 | a job that is not over can be put in recovery, and one in recovery can be closed |
| `RelayEvents.ObjectDies` | src/cloudflare.ts:1153-1180 | a crash loses the RPCs in flight and ends the attempts under way; the platform fires the alarm again if the handler was running |
| `RelayJob.JobStepKeeps` | src/cloudflare.ts:1188-1431 | every step of `runJob`, and every callback of `runTurn`, keeps what is known of its job: attempts within the caps, delivery, marks, and its place in the drain |
| `RelayLaws.FailureOutcome` | src/cloudflare.ts:1390-1430 | in every run, an undelivered turn that fails by itself stays pending, to be tried again, exactly below the cap of its kind; at the cap a dispatched turn goes to recovery with its claims held, and any other gets the failure final, is tombstoned and its claims released |
| `RelayOutcomes.PreflightPasses` | src/cloudflare.ts:1193-1257 | a direct message goes on to its assignment; any other job counts its attempt before anything else (over every run, with every other row, log, mark and worker unchanged) |
| `RelayOutcomes.PreflightIsRetried` | src/cloudflare.ts:1196-1211 | an identity that may come back changes nothing, ends the group and asks for another drain |
| `RelayOutcomes.PreflightFails` | src/cloudflare.ts:1213-1217 | one that will not puts the job in recovery, takes its mark off, ends the group and asks for no drain |
| `RelayOutcomes.AssignmentIsRead` | src/cloudflare.ts:1224-1257 | a direct message with an assignment counts its attempt |
| `RelayOutcomes.AssignmentIsGone` | src/cloudflare.ts:1233-1242 | one without is done, its claims released and its mark off, and the group goes on; no turn ran and no final was sent |
| `RelayOutcomes.AssignmentIsUnread` | src/cloudflare.ts:1243-1248 | one whose policy cannot be read stays as it is, for another drain |
| `RelayOutcomes.TurnStarts` | src/cloudflare.ts:1250-1360 | the turn runs once more, with the envelope and the intent that the job was listed with |
| `RelayOutcomes.IntentIsRecorded` | src/cloudflare.ts:1338-1343 | an intent is recorded once, on a turn that carries none; an intent to work marks the job |
| `RelayOutcomes.DispatchIsPrepared` | src/cloudflare.ts:1262-1263 | preparing a dispatch gives the row its envelope |
| `RelayOutcomes.RecoveryIsAsked` | src/cloudflare.ts:1270-1271 | the turn may put its own job in recovery |
| `RelayOutcomes.TurnIsDelivered` | src/cloudflare.ts:1352-1359 | delivery makes the job done and takes its mark off |
| `RelayOutcomes.TurnReturns` | src/cloudflare.ts:1360-1363 | a delivered turn returns, and the group goes on |
| `RelayOutcomes.TurnReturnsSilently` | src/cloudflare.ts:1360-1363 | one that returns undelivered leaves its job as it is, and the group goes on |
| `RelayOutcomes.PromptAsksForRecovery` | src/cloudflare.ts:1365-1369 | a prompt failure that asks for recovery leaves the row as the turn left it, takes the mark off and ends the group |
| `RelayOutcomes.NoticeIsUnknown` | src/cloudflare.ts:1370-1381 | a notice whose delivery is unknown puts the job in recovery |
| `RelayOutcomes.NoticeIsRetried` | src/cloudflare.ts:1370-1382 | one that was not delivered leaves the job for another drain |
| `RelayOutcomes.DeliveredTurnFails` | src/cloudflare.ts:1383-1389 | a failure after delivery changes nothing, and the group goes on |
| `RelayOutcomes.DispatchedTurnFails` | src/cloudflare.ts:1390-1402 | a dispatched turn that fails is kept for another drain, or goes to recovery at the dispatch cap |
| `RelayOutcomes.PlainTurnFails` | src/cloudflare.ts:1403-1429 | any other that fails is kept for another drain with its mark, or gets the failure final at the turn cap |
| `RelayOutcomes.FinalIsSent` | src/cloudflare.ts:1412-1425 | after the failure final the job is over, its claims released and its mark off, and the group goes on |
| `RelayOutcomes.StepsOfPhase` | src/cloudflare.ts:1188-1431 | no other step is possible in each phase of `runJob` |
| `RelayWitnesses.RecoveryLeavesMark` | src/cloudflare.ts:1195-1215 | a run from the empty store that ends with a job in recovery and its mark on |
| `RelayInvariant.CrashKeepsInv` | src/cloudflare.ts:1153-1180 | a crash at any moment, with the alarm re-fired by the platform, keeps the invariant |
| `RelayInvariant.EnqueueKeepsInv` | src/cloudflare.ts:1100-1117 | enqueueing at any moment of a drain keeps the invariant |
| `RelayInvariant.ReopenKeepsInv` | src/cloudflare.ts:945-953 | an operator's retry at any moment keeps the invariant |
| `RelayInvariant.AdvanceKeepsInv` | src/cloudflare.ts:1450-1463 | a worker that goes on with its group, takes the next one or stops keeps the invariant |
| `RelayRuns.ApplyKeepsInv` | src/cloudflare.ts:1153-1480 | every step of the system keeps the invariant |
| `RelayLaws.TurnsStartInOrder` | src/cloudflare.ts:1433-1463 | in every run, `runTurn` starts on a job only when every earlier job of its conversation is no longer pending, was reopened by an operator, or returned undelivered |
| `RelayLaws.FirstInFirstOut` | src/cloudflare.ts:1433-1463 | without those two, always: whatever crashes, fails or interleaves |
| `RelayLaws.AtMostFourAtOnce` | src/cloudflare.ts:1450-1463 | at most four attempts are under way, and no two workers hold one job |
| `RelayLaws.StartsOncePerDrain` | src/cloudflare.ts:1450-1463 | no job starts twice in one drain |
| `RelayLaws.DrainTakesEveryGroupOnce` | src/cloudflare.ts:1450-1463 | a drain that ends has taken every group exactly once, in order |
| `RelayWitnesses.ReopenedIsOvertaken` | src/cloudflare.ts:945-953 | a run on which a job that an operator reopened is still pending when the next job of its conversation starts |
| `RelayWakeUps.NoLostWakeUp` | src/cloudflare.ts:1100-1117 | a pending job whose RPC has returned has an armed alarm or a handler that rechecks the queue; any other has its RPC in flight or lost to a crash |
| `RelayWakeUps.WakeUpIsLostExactly` | src/cloudflare.ts:1153-1180 | a step takes a pending job's wake-up away exactly when it is a crash with no alarm armed and no handler running |
| `RelayWakeUps.StrandedExactly` | src/cloudflare.ts:1100-1117 | in every run, a pending job is without a wake-up exactly when such a crash happened after its row was written and since then nothing has armed the alarm and no RPC that covers the job has begun |
| `RelayWakeUps.CrashFreeRunsWake` | src/cloudflare.ts:1464-1479 | in a run without a crash every pending job has an armed alarm, a handler that rechecks, or its RPC in flight |
| `RelayWakeUps.CrashBeforeArmingStrands` | src/cloudflare.ts:1100-1117 | the run that strands a pending job |
| `RelayWakeUps.MaintenanceHeals` | src/cloudflare.ts:1080-1096 | in any state a maintenance pass gives every pending job a wake-up in flight |
| `RelayLaws.DeliveryIsFinal` | src/cloudflare.ts:1352-1389 | once `onDelivered` has fired, no further events make the relay run the job, send its failure final or release its claims, and it stays done |
| `RelayLaws.RunsAreBounded` | src/cloudflare.ts:1250-1257 | in every run a job's calls of `runTurn` are at most its cap plus its attempts that ended outside the caps: the turn cap until it is dispatched, the larger cap from then on |
| `RelayLaws.OrdinaryRunsAreCapped` | src/cloudflare.ts:1390-1430 | in an ordinary run they are at most that cap, also for a job that gains a dispatch envelope between attempts |
| `RelayLaws.ClaimsAreReleasedOnce` | src/cloudflare.ts:1407-1425 | in every run a job's claims are released at most once, and only when it is over |
| `RelayWitnesses.BoundIsAttained` | src/cloudflare.ts:1250-1257 | for all caps, any number of exempt attempts, and a job that was dispatched or was not, there is a run that attains the bound |
| `RelayWitnesses.CrashesUnboundRuns` | src/cloudflare.ts:1250-1257 | for every pair of caps and every k there is a run with k calls of `runTurn` on one pending job |
| `RelayLaws.MarkIsLeftOnReturnExactly` | src/cloudflare.ts:1188-1431 | in every run, when `runJob` returns with its job no longer pending, the job's mark is left on exactly when it was marked and no longer pending before the last step and that step is one of the returns that clear no mark; then something else had put the job in recovery |
| `CanonicalJson.CanonInjective` | src/agents/runtime-plan.ts:396-406 | two JSON values have the same canonical text exactly when they are equal |
| `CanonicalJson.CanonReads` | src/agents/runtime-plan.ts:396-406 | no text is the text of two values, even with more text after it |
| `CanonicalJson.SortedKeysAscend` | src/agents/runtime-plan.ts:401-404 | the names of an object are written in ascending order, each once |
| `JsonReading.CanonReadsBack` | src/agents/runtime-plan.ts:396-406 | the canonical text of a value reads as that value under the grammar of RFC 8259, whatever stands behind it |
| `JsonReading.MembersAscend` | src/agents/runtime-plan.ts:400-404 | the members of an object stand in its text in the ascending order of their names |
| `JsonReading.EscapesAreShort` | src/agents/runtime-plan.ts:406 | a character is escaped only if it must be, by a letter if there is one, else by four lower-case hexadecimal digits |
| `PlanIdentity.HarnessJsonIdentifies` | src/agents/runtime-plan.ts:374-394 | two plans have the same harness record exactly when they agree on every harness field |
| `PlanIdentity.HarnessKeepsField` | src/agents/runtime-plan.ts:378-392 | the harness record has the plan's own fields, but for those that place it and an identity that is the empty text |
| `PlanIdentity.HarnessOmitsPlace` | src/agents/runtime-plan.ts:378-392 | it has no conversation, no artifact destination and no revision |
| `PlanIdentity.HarnessOmitsEmptyIdentity` | src/agents/runtime-plan.ts:382 | an identity that is the empty text is left out of it |
| `PlanIdentity.HarnessNamesKind` | src/agents/runtime-plan.ts:391 | it names the kind of the artifact destination |
| `PlanIdentity.RevisionIdentifiesHarness` | src/agents/runtime-plan.ts:374-406 | unless their digests collide, two plans share a harness revision exactly when they agree on every harness field, whatever their conversations |
| `RuntimePlan.CompileSkillsLoop` | src/agents/runtime-plan.ts:289-300 | the loop over the skills fills its Map as `SkillsByName` says and sorts it by name |
| `PlanIdentity.SkillsByNameIsLast` | src/agents/runtime-plan.ts:289-300 | each name keeps its last enabled skill |
| `PlanNormalForm.CompileIsDraft` | src/agents/runtime-plan.ts:103-136 | compiling succeeds exactly when the plan's fields are within their bounds, and then returns the plan it built, so its revision check cannot fail |
| `PlanCompiling.CompilesExactly` | src/agents/runtime-plan.ts:103-136 | compiling an input gives a plan exactly when it is the plan of the input and within the bounds: every scalar field with its default, the surface, the continuity key and the revision; in each list, at every id, what is made of the rows that are kept, in their order; of every skill name the last that is enabled |
| `PlanCompiling.SortIsStable` | src/agents/runtime-plan.ts:631-634 | rows of one id keep their order |
| `PlanNormalForm.NormalReads` | src/agents/runtime-plan.ts:178-287 | the parser accepts a plan in normal form exactly when its fields are within their bounds, and gives it back unchanged |
| `PlanParsing.ParsesExactly` | src/agents/runtime-plan.ts:178-287 | the parser reads a plan from a JSON value exactly when the value has just the fields named, within their bounds and formats, with lists read as sets and the revision of its harness; every other value is refused |
| `PlanParsing.ApiParses` | src/agents/runtime-plan.ts:450-493 | the same for an API connection: OAuth with a provider and scopes, any other mode with neither |
| `PlanParsing.McpParses` | src/agents/runtime-plan.ts:417-448 | the same for an MCP connection |
| `PlanNormalForm.ParsedIsNormal` | src/agents/runtime-plan.ts:178-287 | whatever the parser accepts is in normal form and within bounds |
| `PlanNormalForm.ParseIsIdempotent` | src/agents/runtime-plan.ts:178-287 | parsing what was parsed changes nothing |
| `PlanNormalForm.LegacySurfaceReads` | src/agents/runtime-plan.ts:178-287 | a plan with the legacy `app_home` surface reads as the same plan for a direct message |
| `Sorting.SortedUniqueIsOfSet` | src/agents/runtime-plan.ts:619-629 | lists with the same elements have the same sorted, deduplicated form |
| `Sorting.SortForgetsOrder` | src/agents/runtime-plan.ts:631-634 | sorting by distinct keys does not depend on the order it starts from |
| `PlanIdentity.IdentityIgnoresPresentation` | src/agents/runtime-plan.ts:103-144 | the plan and the derived instance id do not change when rows are reordered, lists are reordered or repeat entries, or hosts, methods and header names change case |
| `PlanIdentity.InstanceIdIdentifies` | src/agents/runtime-plan.ts:138-144 | unless digests collide, two valid plans share an instance id exactly when they share the continuity key and the harness revision |
| `PlanIdentity.KeysOfPlan` | src/agents/runtime-plan.ts:138-175 | the keys of a valid plan as texts |
| `PlanIdentity.CompiledContinuityKey` | src/agents/runtime-plan.ts:103-105 | the continuity key of a compiled plan is the opaque id of its own conversation key |
| `PlanIdentity.ConversationKeyInjective` | src/agents/runtime-plan.ts:150-162 | the conversation key tells the coordinates of valid plans apart |
| `PlanIdentity.SandboxCoordinateInjective` | src/agents/runtime-plan.ts:164-175 | so does the sandbox coordinate, with the owner, before hashing |
| `Projection.SameStringSetIsSetEquality` | src/agents/slack-thread.ts:1031-1033 | `sameStringSet` is equality of the sets of elements |
| `Projection.ProjectionIsLive` | src/agents/slack-thread.ts:956-1029 | a projection that succeeds returns for each API and repository declaration the first live row that says the same, and for the servers those of the declarations that have such a row, in order; instructions, model and skills are the frozen ones |
| `Projection.ProjectionFailsExactly` | src/agents/slack-thread.ts:964-980 | a projection fails exactly for another agent, or when an API or repository declaration has no live row that says the same |
| `Projection.CompiledPlanProjects` | src/agents/slack-thread.ts:956-1004 | a compiled plan projects onto the unchanged profile exactly when no eligible API connection has an empty header prefix, and then returns exactly its eligible rows |
| `RepositoryAccess.GroupByInstallation` | src/agents/slack-thread.ts:260-266 | the grouping loop computes the Map from an installation to its grants |
| `RepositoryAccess.GroupIsFilter` | src/agents/slack-thread.ts:260-266 | each group is its installation's grants, all of them, in their order |
| `RepositoryAccess.SalvageIsExact` | src/agents/slack-thread.ts:231-342 | with distinct ids the returned grants are, in order, exactly those whose installation's mint succeeded and those minted one by one after a 422 in a group of 2 to 25 without an all-repositories grant |
| `RepositoryAccess.TokensAreAskedByName` | src/agents/slack-thread.ts:268-304 | what a turn is granted depends only on the platform's answers for a group's repository names, ascending, for a whole installation where a grant is for all of it, and for a grant's own repository |
| `RepositoryAccess.UsableIsValid` | src/sandbox/egress-handler.ts:57-68 | a grant is usable when it is enabled, of a well-formed account, and for all its repositories or for a well-formed one |
| `RepositoryAccess.ConnectorsMatchGrants` | src/agents/slack-thread.ts:344-395 | every connector carries a token minted for the grants it speaks for and has just their paths, each once and in order, speaks only for returned grants, and every returned grant has all its connectors |
| `RepositoryAccess.ConnectorsComeInThrees` | src/agents/slack-thread.ts:344-395 | for each token there are the connectors of the API, the Git host and code search, in this order |
| `RepositoryAccess.NoFallOpen` | src/agents/slack-thread.ts:231-258 | without a usable connection nothing is granted, and the grants still govern |
| `ActivityCatalog.Catalog.Register` | src/activity/status.ts:63-100 | one registration in place: delete, set, and evict until the map is within its bound |
| `ActivityCatalog.Evicted` | src/activity/status.ts:95-99 | the eviction loop keeps the most recent keys, as many as the bound allows, with their contexts |
| `ActivityCatalog.CatalogIsRecentHistory` | src/activity/status.ts:63-100 | after any registrations the map holds exactly the most recently registered distinct ids, at most 256, in the order of their last registration, each with its latest context |
| `MemoryScopes.BuildScopes` | src/admin/memory-api.ts:533-603 | the three loops over one map and the sort compute `ScopeList` |
| `MemoryListing.ListsTheDescribed` | src/admin/memory-api.ts:533-603 | the list holds for a store and a channel exactly the scope described: of a private store's channel, else of a channel that the public store shows, else of a channel with entries; with its name, privacy, lifecycle and count |
| `MemoryListing.ListedInOrder` | src/admin/memory-api.ts:577-582 | character by character, by workspace, channel, privacy and generation |
| `MemoryScopes.CountsAreConserved` | src/admin/memory-api.ts:533-603 | the scopes' total is the total of the summaries of listed stores, whatever channel states are present |
| `MemoryScopes.EachScopeOnce` | src/admin/memory-api.ts:533-603 | each store and channel is listed at most once, and no summary of a listed store is lost |
| `MemoryScopes.ScopesAreSorted` | src/admin/memory-api.ts:577-582 | scopes are listed by workspace, then channel, privacy and generation |

## Left out

- Characters are Unicode scalar values, not UTF-16 units: lone surrogates, lengths counted in units and the order of astral characters by units are not modelled.
- `new URL`, SHA-256, `opaqueId`, `localeCompare`, upper- and lower-casing beyond curl's method names, token minting and `runTurn` are parameters; digests are assumed not to collide on the two texts compared, `localeCompare` to be a total order and the case map to be idempotent and to preserve length.
- Numbers in a plan are integers; `JSON.stringify` of fractions and of numbers beyond the safe range is not modelled.
- The relay's rows are never deleted: `purgeExpired` is modelled only where it puts rows in recovery, and `discard` is not; `enqueued_at` is the order of insertion, so ties and a clock that runs backwards are left out.
- Ledger-owned jobs and interaction cleanups only appear as the answer that there is more to do: `drainLedgerRuns` and `drainSlackInteractionCleanups` are not modelled.
- Real time and back-off delays; the alarm slot counts as empty while the handler runs, and the platform fires the alarm again when the object dies during it.
- A store statement that throws inside one worker: `Promise.all` then rejects while the other workers go on running, and the platform fires the alarm again, so that two drains overlap. The laws on order, on four attempts at once and on starting once do not cover such a run.
- `runTurn` calls `onInteractionIntent` only when the turn carries no intent, and before delivery, as its code does.
- No bound is stated on the attempts that end outside the caps (crashes, operator retries, undelivered returns, continuity-notice retries, and prompts that ask for recovery but leave the job pending): `RelayLaws.RunsAreBounded` counts them, since each can recur without end.
- The Slack identity resolution, the DM policy read and the Sandbox progress reads are choices of the environment.
- Code search matching in `src/agents/slack-thread.ts`, the caching of installation tokens and the agents' hook composition.
- The phrase tables and command recognisers of `src/activity/status.ts`, and the copying of a registered context.
- Store ids and workspace ids contain no NUL character in the laws on memory scopes, as opaque ids and Slack ids do not.
- The Hono routes, Slack, GitHub and SQL calls, the one-line RPC wrappers, and the other admin APIs: plumbing, or easy members.
