# Scheduler, tenant and push-rule model

A Dafny model of the core of a Node.js service platform. It has four parts:

- **The two-tier job/task scheduler** (`@core/jobs.js`). A job's `run` produces tasks. The
  tasks go onto a task queue, either anonymously or through a named mailbox (a Redis list)
  plus a "queueTask" trigger. A pool then drains the queue through the job's `execute`.
  - The job runner applies backpressure when too many tasks are pending.
  - It re-submits a job after one second while the job keeps producing tasks.
  - After a restart, recovery re-adds delayed entries with their remaining delay.
  - A poller pops events for jobs with `poll` from app-scoped and wildcard external mailboxes.
- **Tenant extraction** (`app-pushapp/middlewares/ContextParser.js`): the order in which a
  request's tenant is taken from the query, a header, the subdomain or the hostname.
- **Push API request rules** (`app-pushapp/routers/PushRouter.js`):
  - route validation;
  - platform and device registration;
  - turning the send filter into a device query;
  - the key-file extension;
  - the tally of per-device send results.
- **Chatbot session rules** (`@core/scriptus/chatbox.js`): domain normalisation, the
  session reset, and the handler dispatch priority.

Everything is a pure function over immutable values.

- Each queue is modelled as the log of its `add` calls.
- The mailboxes are a `map<string, seq<string>>`.
- Company and device collections are sequences in storage order.
- JavaScript values are a `Js.Value` datatype with explicit truthiness.
- These become parameters:
  - the clock;
  - the pending-task count;
  - the random-id generators;
  - `JSON.stringify`/`JSON.parse` (an abstract codec);
  - what the job's `run`/`execute` did;
  - what the push providers did.

Files:

- `js.dfy`: JavaScript values and string helpers.
- `mailboxes.dfy`: `Option` and the list store.
- `jobs.dfy`: the scheduler.
- `jobs_properties.dfy`: multi-step scheduler properties.
- `context_parser.dfy`, `push.dfy`, `chatbox.dfy`: the three smaller parts.

Scheduler behaviour worth knowing before reading the model, all taken from the code:

- **Drain order.** A mailbox entry is popped before `execute` runs, so delivery is
  at-most-once: an `execute` that throws loses the popped message and adds no continuation.
  An at-least-once reading (pop after `execute` succeeds) does not hold. See
  `JobsProperties.ThrowingExecuteLosesMessage`.
- **Continuation.** The continuation trigger is added whenever `execute` returns, whatever is
  left in the mailbox. An emptied mailbox ends the chain one trigger later. See
  `JobsProperties.ContinuationStopsOnEmptyMailbox`.
- **External mailboxes.** These are popped from the tail (`RPOP`), not the head.
- **Recovered entries.** These carry no job id, so the queue gives each one a new identity.

## Model

| member | source | states |
|---|---|---|
| `Jobs.Workers` | @core/jobs.js:104 | The pool width is the job's own setting unless it is missing or zero, in which case it is 5; it is never zero. |
| `Jobs.Delay` | @core/jobs.js:105 | The backpressure delay is the job's own setting unless missing or zero, in which case it is 5000 ms. |
| `Jobs.StartOptions` | @core/jobs.js:54-67 | A started job gets a job id (the caller's, else a fresh one) and retention windows of 1 h/100 and 24 h/500; every option the caller passes overrides these defaults. |
| `Jobs.Start` | @core/jobs.js:53-68 | `start` appends exactly one "read" entry carrying the data and the caller's options and touches neither the task queue nor the mailboxes. |
| `JobsProperties.StartUsesFreshIdOnlyWithoutJobId` | @core/jobs.js:54 | The generated id is used exactly when the caller passes no `jobId` key (a present but falsy `jobId` still wins because the spread comes last). |
| `Jobs.NamedTaskOptions` | @core/jobs.js:79-84 | A named trigger's id is the mailbox name unless the caller's options override it. |
| `Jobs.AnonymousTaskOptions` | @core/jobs.js:91-100 | An anonymous task gets a fresh id; caller options override everything, task options survive where nothing overrides them. |
| `Jobs.AddTask` | @core/jobs.js:70-102 | Named mode appends the serialized data to the tail of that mailbox only when the data is truthy, touches no other mailbox, and adds one "queueTask" trigger keyed by the mailbox name; anonymous mode adds one "execute" entry carrying the data and leaves the mailboxes alone. |
| `Jobs.Filter` | @core/jobs.js:124-126 | The filtered list holds exactly the truthy elements of the input. |
| `Jobs.FilterAppend` | @core/jobs.js:124 | Filtering the concatenation equals concatenating the filtered parts, so collector tasks stay ahead of returned ones. |
| `Jobs.FilterKeepsTruthy` | @core/jobs.js:131 | A list of truthy tasks passes the per-task truthiness guard unchanged. |
| `Jobs.MergeTasks` | @core/jobs.js:116-127 | The runner's task list: collector tasks then returned tasks with falsy ones removed when `run` returned an array; the collector's list untouched otherwise. |
| `Jobs.MergeTasksFiltered` | @core/jobs.js:116-136 | The corrected task list holds exactly the truthy collected or returned tasks, is non-empty exactly when one exists, and agrees with the as-written list whenever `run` returned an array. |
| `Jobs.AddAnonymous` | @core/jobs.js:131 | `task(t)` with no options appends exactly the anonymous "execute" entry for `t`. |
| `Jobs.PushTasks` | @core/jobs.js:130-132 | Pushing a task list adds one anonymous entry per truthy task, in list order, each under the next generated id, and changes nothing else. |
| `Jobs.RunJob` | @core/jobs.js:112-144 | Backpressure happens exactly when the pending count reaches twice the pool width and re-submits the job as a "read" entry under the same id with the job's delay; otherwise a throwing `run` changes nothing, an empty task list finishes the job with the store unchanged, and a non-empty one pushes every task in order then re-submits the same id after 1000 ms. |
| `Jobs.RunBelowThreshold` | @core/jobs.js:112-136 | Below the backpressure threshold a returning `run` is acted on through the merged task list. |
| `Jobs.AfterRunEnqueues` | @core/jobs.js:128-133 | A non-empty task list adds its anonymous entries in order and exactly one "read" re-submission of the same job after 1000 ms, under the job's own id (`job.id`). |
| `Jobs.RunJobFiltered` | @core/jobs.js:114-140 | The corrected runner finishes exactly when `run` produced no truthy task, pushes exactly the truthy tasks, and behaves as written whenever `run` returned an array. |
| `JobsProperties.BackpressureSkipsRun` | @core/jobs.js:137-139 | Above the threshold the outcome of `run` cannot influence the step: the job is re-submitted under its own id with the full delay. |
| `JobsProperties.TwoTasksContinue` | @core/jobs.js:128-133 | A four-worker job whose `run` returns two tasks with seven pending adds two anonymous tasks in order and re-submits itself after 1000 ms. |
| `JobsProperties.FalsyCollectedTaskKeepsJobAlive` | @core/jobs.js:123-133 | As written, a `task(null)` collector call with no returned array re-submits the job although no task was added. |
| `JobsProperties.FalsyCollectedTaskFinishesWhenFiltered` | @core/jobs.js:123-136 | With the corrected merge the same call finishes the job. |
| `JobsProperties.NamedTasksAppendInOrder` | @core/jobs.js:71-78 | Successive named tasks leave their truthy payloads at the tail of their mailbox in call order and touch no other mailbox. |
| `JobsProperties.TwoNamedTasksShareTrigger` | @core/jobs.js:79-80 | Two named tasks for one mailbox queue both payloads in order while both triggers carry the same id, the mailbox name. |
| `Jobs.AddContinuation` | @core/jobs.js:171 | The continuation `task(null, {id, queue})` adds one trigger for the same mailbox and pushes no payload. |
| `Jobs.DrainTask` | @core/jobs.js:153-184 | A trigger pops the mailbox head; an empty pop or empty text executes nothing; a message is parsed and executed with `{id, queue}`, followed by a continuation trigger when `execute` returns and none when it throws; other entries are executed directly with `{id}`; no other mailbox changes. |
| `JobsProperties.DrainExecutesHeadsInOrder` | @core/jobs.js:156-161 | Repeated drains execute the queued payloads head first, each exactly once, and leave the rest of the mailbox. |
| `JobsProperties.DrainPopsHead` | @core/jobs.js:156-161 | One drain of a mailbox whose head text is non-empty executes that text's parsed value and leaves the remaining texts. |
| `JobsProperties.DrainPopsInOrder` | @core/jobs.js:156-175 | Draining once per queued non-empty text executes the parsed texts head first, each exactly once, and leaves what followed them. |
| `JobsProperties.NamedDeliveryIsFifo` | @core/jobs.js:75-161 | Named tasks pushed to an empty mailbox are executed in submission order and the mailbox ends empty. |
| `JobsProperties.NamedTriggerDrainsItsMailbox` | @core/jobs.js:155-171 | The trigger a named task adds, once delivered, executes that task's payload and schedules a continuation. |
| `JobsProperties.ContinuationStopsOnEmptyMailbox` | @core/jobs.js:158-175 | A continuation delivered on an empty mailbox executes nothing and adds nothing, so the chain ends. |
| `JobsProperties.ThrowingExecuteLosesMessage` | @core/jobs.js:158-183 | When `execute` throws, the popped message is gone and no continuation is added. |
| `Jobs.RemainingDelay` | @core/jobs.js:193-197 | The recovered delay is never negative; with a timestamp and a delay it is what is left until the original due time, and 0 once that time has passed or when either is missing. |
| `JobsProperties.RecoveredDueTime` | @core/jobs.js:205-211 | An entry recovered before its due time falls due exactly when the original would have. |
| `Jobs.RecoverQueue` | @core/jobs.js:204-212 | Each delayed entry is re-added once, in order, after the existing entries, with its data and a non-negative `delay` as its only option. |
| `Jobs.Recover` | @core/jobs.js:189-213 | Delayed jobs come back as "read" entries and delayed tasks as "execute" entries; mailboxes are untouched. |
| `JobsProperties.RecoveredTriggerBecomesExecute` | @core/jobs.js:203-211 | As written, a recovered named trigger is executed directly with its own options as data, and its mailbox is not popped. |
| `Jobs.ReaddedKeepingName` | @core/jobs.js:203-212 | The corrected recovery re-adds each delayed task under its original name and with its own `jobId`, with its data and remaining delay and no other option. |
| `JobsProperties.RecoveredTriggerKeepsDraining` | @core/jobs.js:150-163 | A trigger brought back by the corrected recovery is delivered under its mailbox name whatever id the queue would generate, and pops and executes that mailbox's head. |
| `Jobs.ExecuteOnQueue` | @core/jobs.js:236-244 | One poll pops the tail of `eq:app:{app}:topic:{topic}` and hands the event's `data` to `poll`, as read off the list's last element; an empty list or empty text hands nothing; a null event crashes; other lists are untouched. |
| `JobsProperties.MailboxNameInjective` | @core/jobs.js:237 | For apps without ':', the external mailbox name determines the app and the topic. |
| `Jobs.WildcardMailboxIsDistinct` | @core/jobs.js:226-227 | The app-scoped and wildcard mailboxes of a topic are different lists unless the app is "*". |
| `JobsProperties.PollAppBeforeWildcard` | @core/jobs.js:225-228 | For a job with `poll` whose first call returns, the app-scoped event is delivered before the wildcard one. |
| `JobsProperties.ThrowingPollSkipsWildcard` | @core/jobs.js:225-231 | A `poll` that throws on the app-scoped event ends the job's turn: that one call is made and the wildcard mailbox keeps its events. |
| `Jobs.PollJob` | @core/jobs.js:223-231 | A job without `poll` is skipped. For a job with it, the app-scoped list loses its last element; the `*` list loses its last element unless the first pop crashed or its `poll` call threw; the calls are the first event's `data` and then, unless stopped, the wildcard event's; every other list is untouched. With app "*" both pops take from the same list. |
| `Jobs.PollPass` | @core/jobs.js:221-234 | A pass makes at most two calls per registered job, and every call goes to a job that defines `poll`. |
| `Mailboxes.RPush` | @core/jobs.js:75 | Appending puts the item at the tail of that list and leaves every other list as it was. |
| `Mailboxes.LPop` | @core/jobs.js:158 | Popping the head of a non-empty list yields its first item and keeps the rest in order; an empty list yields nothing. |
| `Mailboxes.RPop` | @core/jobs.js:238 | Popping the tail of a non-empty list yields its last item and keeps the rest in order; an empty list yields nothing. |
| `Mailboxes.PushThenPopCommute` | @core/jobs.js:158 | On a non-empty list a push at the tail does not change what the next head pop yields. |
| `Mailboxes.PushThenPopEmpty` | @core/jobs.js:158 | On an empty list the item pushed is the item popped. |
| `Js.Or` | @core/scriptus/chatbox.js:13 | A logical or of two values is one of its operands and is truthy exactly when either operand is. |
| `Js.Split` | app-pushapp/routers/PushRouter.js:414 | Splitting on a separator gives at least one part, no part contains the separator, and joining the parts gives back the text. |
| `Js.SplitJoin` | app-pushapp/routers/PushRouter.js:414 | Splitting the join of separator-free parts gives back exactly those parts. |
| `Js.FirstSegment` | app-pushapp/middlewares/ContextParser.js:11 | The first dot-label is a prefix without a dot that ends at the first dot or the end of the text. |
| `ContextParser.NgrokLabel` | app-pushapp/middlewares/ContextParser.js:9-12 | The ngrok host compared with the subdomain is the first label of the configured domain (a dot-free prefix ending at the first dot or at the end), undefined when none is configured. |
| `ContextParser.ExtractTenant` | app-pushapp/middlewares/ContextParser.js:3-18 | The tenant is always one of the sources (query, header, first subdomain), "demo", or undefined. |
| `ContextParser.QueryTenantWins` | app-pushapp/middlewares/ContextParser.js:4-5 | A truthy query `tnt` is the tenant whatever the other sources say. |
| `ContextParser.HeaderTenantOnlyWithoutQuery` | app-pushapp/middlewares/ContextParser.js:6-7 | The header tenant is taken when the query has none, and never against a different query tenant. |
| `ContextParser.SubdomainTenant` | app-pushapp/middlewares/ContextParser.js:8-14 | Without query and header tenants, the first subdomain is the tenant unless it equals the ngrok label, which maps to "demo". |
| `ContextParser.NoTenantWithoutSource` | app-pushapp/middlewares/ContextParser.js:15-18 | The tenant is falsy exactly when no source supplies one (an empty first subdomain counts as none unless it equals the ngrok label), and `localhost` supplies "demo". |
| `ContextParser.Middleware` | app-pushapp/middlewares/ContextParser.js:20-25 | The middleware always lets the request through with the extracted tenant as its context: the query tenant, else the header tenant, else the first subdomain ("demo" when it is the ngrok label), else "demo" for `localhost` and undefined otherwise. |
| `ChatBox.NormaliseDomain` | @core/scriptus/chatbox.js:13-14 | After normalisation tenant and domain are equal: the tenant when it was truthy, the old domain otherwise. |
| `ChatBox.NormaliseIdempotent` | @core/scriptus/chatbox.js:13-14 | Normalising twice gives the same context as normalising once. |
| `ChatBox.LoadContext` | @core/scriptus/chatbox.js:83-132 | No stored contact gives `false`; otherwise the session is reset exactly when it is older than 30 minutes (a null time stamp counts as time 0, a missing one never makes it stale) or the routing id changed, a reset leaves empty promise and handler lists and empty user data, an untouched contact keeps its session and data, and a loaded contact always has a session. |
| `ChatBox.ResetSessionHasNoRoutingId` | @core/scriptus/chatbox.js:96-104 | A reset session records no routing id, so a routed context finds it re-routed again on the next load. |
| `ChatBox.DispatchIsPriorityOrder` | @core/scriptus/chatbox.js:140-164 | The handler is the first enabled of session start, session routed, non-empty handler stack, with message receipt as the fallback. |
| `ChatBox.Execute` | @core/scriptus/chatbox.js:134-164 | A missing contact crashes the call; otherwise the priority chain picks the handler, which runs when the script defines it (the reply snippet always runs). |
| `ChatBox.ResetNeverReplies` | @core/scriptus/chatbox.js:96-152 | A message that reset the session is never routed to the reply snippet. |
| `PushRules.CheckPlatformRequest` | app-pushapp/routers/PushRouter.js:32-48 | A platform request is accepted exactly when it names an app (by name or id), a platform type and a bundle id, and for iOS both key fields; every rejection is a 400, with the app check first. |
| `PushRules.RecordedAppId` | app-pushapp/routers/PushRouter.js:78-80 | A company's `app_id` keeps a set value and otherwise becomes the bundle id. |
| `PushRules.AddPlatform` | app-pushapp/routers/PushRouter.js:77-92 | Registering a platform keeps the company's name and id and appends exactly one platform. |
| `PushRules.RegisterPlatform` | app-pushapp/routers/PushRouter.js:28-106 | 404 exactly when an accepted request's `app_id` matches no company; 400 exactly when validation fails or a new app's name is taken; otherwise the platform is added to the first company with that id, or a new company is appended, and the answer names the new platform. A new company's id and the platform's id use separate clock readings. |
| `PushRules.AppIdSetOnlyOnce` | app-pushapp/routers/PushRouter.js:78-80 | A company's `app_id` is the bundle id of its first registration and a later registration through `app_id` does not change it. |
| `PushRules.RegistrationKeepsNamesUnique` | app-pushapp/routers/PushRouter.js:62-75 | Registration never creates a second company with a name already taken. |
| `PushRules.FileExtension` | app-pushapp/routers/PushRouter.js:147 | The key file is `.p8` exactly for iOS and `.json` for every other platform. |
| `PushRules.UploadPlatformFile` | app-pushapp/routers/PushRouter.js:118-166 | 400 exactly when the app id, platform id or file is missing; success exactly when the first company with that id has a platform with that id, and then the key-file path is recorded on exactly that platform; every other failure is a 404, meaning no company has the id or the first one lacks the platform. |
| `PushRules.SendKeyFile` | app-pushapp/routers/PushRouter.js:443-457 | A send opens no key file when the company has no configuration for the device's platform, and otherwise the file named after the first such configuration, below `docs` in the directory above the router. |
| `PushRules.SendKeyFileAfterUpload` | app-pushapp/routers/PushRouter.js:141-149 | After an upload for the first configuration of a platform type, the send for a device of that type computes the uploaded relative path below its own directory. |
| `PushRules.SendFindsUploadOnlyFromAppDir` | app-pushapp/routers/PushRouter.js:141-149 | As written, the send opens the file the upload stored exactly when the working directory is the directory above the router. |
| `PushRules.UploadFromRootIsNotFound` | app-pushapp/routers/PushRouter.js:141-149 | As written, a server run from the repository root stores key files where the send never looks. |
| `PushRules.SendReadsUploadedFile` | app-pushapp/routers/PushRouter.js:141-155 | Corrected: an upload resolved against the send routes' directory stores the key file exactly where a later send for that platform opens it, and records its relative path on the platform. |
| `PushRules.RegisterDevice` | app-pushapp/routers/PushRouter.js:178-214 | 400 exactly when one of device id, token, platform or company id is missing; a known device only gets a new token and activity time and keeps its session; an unknown one is stored with the new session id, logged-in status and no user. |
| `PushRules.ReRegisterKeepsSession` | app-pushapp/routers/PushRouter.js:189-210 | Re-registering a device answers with the session id of its first registration. |
| `PushRules.ReRegisterKeepsOwner` | app-pushapp/routers/PushRouter.js:191-195 | Re-registering keeps the device's platform and company even when the request names others. |
| `PushRules.SetLogin` | app-pushapp/routers/PushRouter.js:225-287 | 400 exactly when the device id or user id is missing or no device matches both device id and company; otherwise the first matching device gets the user and the status, and only a login touches its activity time. |
| `PushRules.SetLoginAt` | app-pushapp/routers/PushRouter.js:232-251 | With both ids present, login and logout update exactly the first device that the request addresses and answer with its session id. |
| `PushRules.RegisterUser` | app-pushapp/routers/PushRouter.js:225-251 | A successful login leaves the addressed device logged in under the user with the current activity time. |
| `PushRules.Logout` | app-pushapp/routers/PushRouter.js:262-287 | A successful logout leaves the addressed device logged out under the user. |
| `PushRules.LogoutUndoesOnlyStatus` | app-pushapp/routers/PushRouter.js:274-280 | Logging out after logging in succeeds, answers the same session id, and changes nothing but the status. |
| `PushRules.BuildQuery` | app-pushapp/routers/PushRouter.js:405-425 | The query fails (the 500 path) exactly when `filter.platform` is truthy but not text; it is scoped to the app and filters platforms exactly when a platform list is given. |
| `PushRules.QuerySelectsAddressed` | app-pushapp/routers/PushRouter.js:406-425 | The built query selects exactly the logged-in devices of the app on a listed platform whose user fits the session type ("user": some user, "guest": none) or, without one, is the profile code. |
| `PushRules.PlatformListSelectsListed` | app-pushapp/routers/PushRouter.js:413-416 | A space-separated platform list selects exactly the devices on a listed platform. |
| `PushRules.SessionTypeOverridesProfile` | app-pushapp/routers/PushRouter.js:418-425 | With session type "user" the by-user route reaches another user's device, which the plain query excludes. |
| `PushRules.FindDevices` | app-pushapp/routers/PushRouter.js:429 | The found devices are exactly the stored devices the query matches. |
| `PushRules.FindDevicesAppend` | app-pushapp/routers/PushRouter.js:429 | The found devices keep storage order: finding over two stretches of storage is finding over the first, then over the second. |
| `PushRules.DeviceResponse` | app-pushapp/routers/PushRouter.js:438-514 | A device whose platform has no configuration yields the "not found" failure; a configured device of an unsupported platform yields nothing; a supported one uses the first configuration of its platform and yields a success when the provider delivers and the provider's error message when it throws. |
| `PushRules.DeviceResponses` | app-pushapp/routers/PushRouter.js:435-515 | The responses are the per-device responses in device order, skipping the devices that yield none; when every platform is supported, response i is device i's. |
| `PushRules.CountSucceeded` | app-pushapp/routers/PushRouter.js:518-519 | The success count never exceeds the number of responses. |
| `PushRules.TallyPartitions` | app-pushapp/routers/PushRouter.js:518-529 | Each response is counted exactly once, as sent or failed. |
| `PushRules.NoneSucceeded` | app-pushapp/routers/PushRouter.js:518-519 | Zero successes are counted exactly when no response succeeded. |
| `PushRules.ByUserReply` | app-pushapp/routers/PushRouter.js:431-531 | 404 exactly when no device was found; 500 exactly when devices were found but no send succeeded; otherwise the sent count is positive, the failed count is the failures, and together they are all responses. |
| `PushRules.SendByUser` | app-pushapp/routers/PushRouter.js:390-539 | 400 exactly when profile code, message or app id is missing; a success reports a positive number sent and never more results than stored devices. |
| `PushRules.UnconfiguredDevicesFail` | app-pushapp/routers/PushRouter.js:443-524 | When the company has no configuration for any found device, the by-user send answers 500. |
| `PushRules.OneDeliveryIsEnough` | app-pushapp/routers/PushRouter.js:438-519 | One configured, supported device whose provider delivers makes the success count positive. |
| `PushRules.DeliveredIsSent` | app-pushapp/routers/PushRouter.js:438-514 | A configured device of a supported platform whose provider delivers gets a success response. |
| `PushRules.BulkResponsesAsWritten` | app-pushapp/routers/PushRouter.js:603-617 | As written, the bulk loop records for each device, in order, a failure with its platform and token and the ReferenceError message. |
| `PushRules.BulkAsWrittenSendsNothing` | app-pushapp/routers/PushRouter.js:603-688 | As written, the bulk route answers 200 reporting zero sent and every device failed. |
| `PushRules.BulkReply` | app-pushapp/routers/PushRouter.js:597-688 | The bulk reply is a 404 exactly when no device was found and otherwise reports successes plus failures equal to all responses. |
| `PushRules.SendBulkAsWritten` | app-pushapp/routers/PushRouter.js:557-696 | As written, 400 exactly when message, title or app id is missing, and a success always reports zero sent and at least one failure. |
| `PushRules.SendBulk` | app-pushapp/routers/PushRouter.js:557-696 | The corrected bulk route (per-device configuration, as in the by-user route): 400 exactly when message, title or app id is missing; a success never reports more results than stored devices. |
| `PushRules.BulkCorrectedDelivers` | app-pushapp/routers/PushRouter.js:603-617 | With the configuration looked up per device, a delivering provider for a configured device is counted as sent. |

## Left out

- Queue internals are not modelled: BullMQ locking, leases, the actual delay, and deduplication by job id. A queue is the log of its `add` calls, and the effect of a duplicate id is the queue's.
- The 500 ms `setTimeout` that removes a finished trigger before the continuation is added is left out, because it is timing behaviour. Only the continuation push is modelled.
- The 1 s re-arm of the poll loop and its error logging are left out. One pass is modelled. An exception stops the rest of that job's turn: a null event (`Crashed`) or a `poll` that throws synchronously (the `throws` parameter). A rejected promise of an async `poll` is not awaited and stops nothing.
- `initJobs` is left out: directory scanning, `require`, decorator lookup and queue construction. A job is a `JobDef` value.
- `JSON.stringify`/`JSON.parse` are an abstract codec. The FIFO and draining lemmas assume it round-trips and never yields empty text. A parse error on malformed text is not modelled.
- `crypto.randomUUID`, `crypto.randomBytes` and `Date.now` are parameters.
- Recovery uses one clock reading for all entries. A non-numeric `delay` option is read as 0.
- `path.join` normalisation is left out. Key-file paths are kept as their segment lists. The directories they are resolved against are parameters: the process's working directory for the upload, the directory above the router for the sends.
- The provider calls (APNs, FCM, Huawei, `fetch`) are a `deliver` parameter. APNs answering with a failure list instead of throwing is the provider's behaviour.
- Persistence is assumed to succeed; database errors (the 500 answers) are not modelled. That includes the schema marking `channel_id` required, which `/register` never sets.
- Mongo query semantics beyond equality are left out. A non-string `app_id` is not read as a query operator. An undefined `company_id` in the `/register/user` and `/logout` lookups is compared as a value.
- `/send-notification` is not modelled beyond its extension choice, which is the same as `FileExtension`.
- The chatbot's ScriptBox VM, snippets, context-store writes and the 10 s promise loop are left out. Which entry points a script defines is a parameter.
- The store-clearing calls on reset and the session time-stamp update are left out, because they are writes to the store.
- `Jobs.DrainTask`: the continuation is stated only for a non-empty mailbox name. With an empty name the continuation's `queue` is falsy and becomes an anonymous "execute" entry; only its presence is implied, not its shape.
- `Jobs.PollPass`: states the bounds and addressees of the poll calls, not their payloads. The payloads are stated per job by `JobsProperties.PollAppBeforeWildcard`.
- `PushRules.SendByUser` and `PushRules.SendBulk`: state the validation and tally bounds. Per-device results are stated by `PushRules.DeviceResponse`, `PushRules.ByUserReply` and the lemmas about them.
- `PushRules.UploadPlatformFile`: a 404 is only said to mean that the app or the platform was not found. Which of the two messages is returned is not stated.

## Findings

| source | as written | input that shows it | evidently intended | confidence | as-written member | corrected member |
|---|---|---|---|---|---|---|
| @core/jobs.js:123-133 | Falsy tasks are filtered out only when `run` returns an array, but the continuation test counts every collected task. | `run` calls `task(null)` and returns nothing. No task is added, yet the job is re-submitted every second. | The job finishes when it produced no real task. | medium, not executed | `JobsProperties.FalsyCollectedTaskKeepsJobAlive` | `JobsProperties.FalsyCollectedTaskFinishesWhenFiltered` |
| @core/jobs.js:203-211 | Every delayed task is re-added under the name "execute" and without its id. | A delayed "queueTask" trigger for mailbox `q`. The re-added copy is an "execute" entry, so `execute` gets the trigger options as data and `q` is not popped. The original delayed trigger stays queued and still drains `q` when due, so the harm is one extra, meaningless `execute` call. | Re-add each task under its own name and id. | medium, not executed | `JobsProperties.RecoveredTriggerBecomesExecute` | `JobsProperties.RecoveredTriggerKeepsDraining` |
| app-pushapp/routers/PushRouter.js:141-149 | The upload stores the key file at `docs/…` relative to the process's working directory. The send routes open `docs/…` relative to the directory above the router (lines 310, 455, 619). | A server started from the repository root, where `server.js` sits and where the scheduler resolves worker directories. The upload writes `<root>/docs/<app>/<type>/<id>.<ext>`; the send opens `<root>/app-pushapp/docs/…`, so loading the key fails and the device is recorded as failed. | Resolve both paths against the same directory. | medium, not executed | `PushRules.UploadFromRootIsNotFound` | `PushRules.SendReadsUploadedFile` |
| app-pushapp/routers/PushRouter.js:605-607 | The bulk route reads `platform` and `platformConfig`, which it never declares. | Any bulk send that finds devices. Each device throws a ReferenceError and is recorded as failed, and the route answers 200 with zero sent. | Look up each device's configuration by its platform, as the by-user route does. | high, not executed | `PushRules.BulkAsWrittenSendsNothing` | `PushRules.BulkCorrectedDelivers` |
