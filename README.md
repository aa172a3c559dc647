# telegram-task-notifier, modelled in Dafny

The service remembers which Telegram conversation last wrote to its bot and
later sends that conversation a summary message when a task finishes. This
project models that pipeline with proofs: webhook update, then chat-id
capture, then task start, then the summary notification. It also models the
pure parsers, normalisers and payload builders around the pipeline.

The pipeline stages are:

- **Webhook capture.** `Telegram` walks a decoded update (`JsonValue.Json`)
  along the three places an integer `chat.id` may sit. `ProcessTelegramWebhook`
  gates the update on the shared secret and stores the id.
- **State store.** `ChatState` is a one-cell store mirrored to a state file,
  written through a `.tmp` file and a rename. `Decimal` gives `str(int)` and
  `int(str)` and proves that they round-trip.
- **Task start.** `StartTask` chooses the conversation, normalises the
  request and sends the summary message. `Controllers` and
  `TaskPresenter`/`TelegramPresenter` fix the order of the calls and the JSON
  bodies returned.
- **Settings.** `Config` holds the settings parsers, the `.env` loader and
  the start-up validation.
- **Legacy service.** `LegacyApp` is the original single-file service
  (`main.py`). It reuses the same extraction, store and `.env` loop.
- **Helper scripts.**
  - `SetWebhook` registers the webhook.
  - `RunLauncher` is the single-process launcher.
  - `CodexRunner` finds changed files and decides when an iteration has
    settled.
  - `NotifyCommon` and `NotifyTask` are the notification scripts.
- **Mail gateway.** `Smtp` covers the pure parts of the SMTP mail gateway.
- **Shared code.** `PyStr` models the CPython `str` operations the code
  relies on, and `LogSafety` the log masking.

External effects become parameters or recorders:

- **Failure outcomes.** Whether a file write or rename fails, whether a read
  fails, whether a send raises, and the exit status of `curl` are all
  parameters.
- **Outside readings.** Clock readings, snapshots of the working tree and
  command lookups on `PATH` are parameters too.
- **Recorders.** The Telegram send port, the Bot API, the background-task
  queue and the `curl` call are classes that record the calls made.
- **Mutable state.** State the source updates in place is held in the fields
  of a `class`: the `FileChatStateGateway` cell, `os.environ`, the state
  files and the Codex runner's polling state.

Three places duplicate code that is modelled once:

- **`.env` loaders.** The loaders of `main.py` and
  `scripts/set_telegram_webhook.py:18-40` are the same loop as
  `load_env_file` in `src/shared/config.py`. All three are
  `Config.Environment.LoadEnvFile`.
- **Chat-id extraction.** `_extract_chat_id` in `main.py` is the same code
  as `extract_chat_id`, and both are `Telegram.ExtractChatId`.
- **Notification helpers.** `send_task_notification` in
  `scripts/notify_task.py` is the same code as the shared one in
  `scripts/notify_common.py`, and both are
  `NotifyCommon.CurlOutbox.SendTaskNotification`.

`Decimal.ParseInt` accepts what CPython's `int(text)` accepts for ASCII
text in base 10:

- surrounding whitespace;
- one optional sign;
- decimal digits with single `_` separators between digits.

Non-ASCII digits are not accepted.

## Model

| member | source | states |
|---|---|---|
| Telegram.LookupMessagePath | src/entities/telegram.py:6-8 | walking `key.chat.id` is looking up `key`, then `chat`, then `id` |
| Telegram.ChatIdOfMatchesPath | src/entities/telegram.py:6-9 | the id read from a message object is an integer exactly when that integer sits at `key.chat.id` |
| Telegram.CallbackMatchesPath | src/entities/telegram.py:11-17 | the id read through `callback_query.message` is an integer exactly when that integer sits at `callback_query.message.chat.id` |
| Telegram.MessagePathWins | src/entities/telegram.py:5-9 | an integer at `message.chat.id` is the result, whatever the other paths hold |
| Telegram.FalsyMessageFallsThrough | src/entities/telegram.py:5 | a missing or falsy `message` (`{}`, `null`) falls through to `edited_message` |
| Telegram.CallbackPathTried | src/entities/telegram.py:11-17 | with no integer id under `message`/`edited_message`, the `callback_query.message.chat.id` integer is returned |
| Telegram.NoIntegerNoId | src/entities/telegram.py:19 | with no integer at any of the three paths (string id, chat without id, empty update) the result is `None` |
| Telegram.ExtractedIdIsPresent | src/entities/telegram.py:9-17 | a returned id is an integer actually present at one of the three paths |
| Telegram.ExtractionExamples | tests/test_entities_telegram.py:4-19 | the five test updates: 123 via message, 456 via callback, `"123"` not coerced, chat without id, empty update |
| Telegram.BooleanIdCapturedAsWritten | src/entities/telegram.py:8 | as written, `{"message":{"chat":{"id":true}}}` returns `True`, whose `str` is `"True"`, which `int()` rejects on reload; the corrected extraction returns `None` |
| Telegram.AsWrittenAgreesOnIntegerIds | main.py:108-123 | on updates without boolean ids the as-written extraction (entity and `main.py` copy) equals the corrected one |
| ChatState.StateFiles.constructor | src/interface_adapters/gateways/file_chat_state_gateway.py:48-49 | the state file as given, and no `.tmp` file |
| ChatState.RestoreIsParse | src/interface_adapters/gateways/file_chat_state_gateway.py:25-44 | the restored id is `int()` of the file content when it is read, `None` otherwise: the blank-file check is subsumed by the parse |
| ChatState.PersistedIdRestores | src/interface_adapters/gateways/file_chat_state_gateway.py:48-53 | what `str(chat_id)` writes loads back as the same id, negative ids included |
| ChatState.RestoreExamples | tests/test_file_chat_state_gateway.py:6-34 | a file with `12345` restores 12345; garbage, an empty file and a missing file restore nothing |
| ChatState.FileChatStateGateway.constructor | src/interface_adapters/gateways/file_chat_state_gateway.py:9-14 | construction loads the id from the state file and never fails |
| ChatState.FileChatStateGateway.LoadLastChatIdFromFile | src/interface_adapters/gateways/file_chat_state_gateway.py:25-46 | a parsed id replaces the cell; a missing, unreadable, blank or non-integer file leaves the cell as it was |
| ChatState.FileChatStateGateway.GetLastChatId | src/interface_adapters/gateways/file_chat_state_gateway.py:16-18 | returns the cell and changes nothing |
| ChatState.FileChatStateGateway.SetLastChatId | src/interface_adapters/gateways/file_chat_state_gateway.py:20-23 | memory always holds the new id; the state file and the `.tmp` file end as `PersistLastChatId` leaves them |
| ChatState.TempAfterFailedWrite | src/interface_adapters/gateways/file_chat_state_gateway.py:51 | a `write_text` that raised before opening leaves the `.tmp` file as it was; one that raised after opening leaves a prefix of the text, no longer than it |
| ChatState.FileChatStateGateway.PersistLastChatId | src/interface_adapters/gateways/file_chat_state_gateway.py:48-55 | write `.tmp`, then rename: the state file holds `str(id)` after both steps and its old text otherwise; the `.tmp` file is gone after the rename, holds the full text when the rename fails, and after a failed write is unchanged (not opened) or holds a prefix of the text, possibly empty |
| ChatState.CaptureThenRestart | src/interface_adapters/gateways/file_chat_state_gateway.py:9-55 | after a successful persist a gateway built on the same files restores the same id; after a failed one it restores what the file held before |
| ProcessTelegramWebhook.SecretCheckCharacterised | src/use_cases/process_telegram_webhook.py:44 | no configured secret lets everything through, `None` included; a configured one lets through exactly the identical header |
| ProcessTelegramWebhook.SafeChatId | src/use_cases/process_telegram_webhook.py:25-30 | `None` logs as ""; a present id logs as `str(id)` unmasked and as `mask_identifier(str(id), 2, 2)` masked, never empty |
| ProcessTelegramWebhook.UnmaskedChatIdReadable | src/use_cases/process_telegram_webhook.py:28-29 | unmasked, the logged text parses back to the id |
| ProcessTelegramWebhook.MaskedChatIdUnreadable | src/use_cases/process_telegram_webhook.py:30 | masked (two and two), an id of more than four characters no longer parses as a number |
| ProcessTelegramWebhook.ProcessTelegramWebhookUseCase.constructor | src/use_cases/process_telegram_webhook.py:11-23 | the expected secret is stripped once, at construction |
| ProcessTelegramWebhook.ProcessTelegramWebhookUseCase.Execute | src/use_cases/process_telegram_webhook.py:32-91 | a rejected secret fails and changes no state; otherwise the result is `extract_chat_id(update)`, a found id is stored in memory and the state and `.tmp` files end as the persist outcome leaves them, no id leaves the store untouched, and the log events come in order |
| ProcessTelegramWebhook.GetLastChatUseCase.constructor | src/use_cases/get_last_chat.py:7-9 | keeps the gateway |
| ProcessTelegramWebhook.GetLastChatUseCase.Execute | src/use_cases/get_last_chat.py:11-14 | returns the gateway's id |
| StartTask.ConfiguredRepositoryName | src/use_cases/start_task.py:25 | the configured name stripped, or `unknown-repository` when blank; never blank |
| StartTask.NormalizeModifiedFilesCount | src/use_cases/start_task.py:29-32 | negative counts become 0, others are kept |
| StartTask.NormalizeRepositoryName | src/use_cases/start_task.py:35-38 | `None` becomes ""; a name is stripped; the result is empty exactly for `None` or blank |
| StartTask.NormalizersIdempotent | src/use_cases/start_task.py:29-38 | normalising twice is normalising once |
| StartTask.ResolveElapsedSeconds | src/use_cases/start_task.py:70-73 | a positive reported time wins over the measured one; either is raised to 0.01, so the result is at least 0.01 |
| StartTask.ResolveElapsedProperties | tests/test_start_task_use_case.py:86-88 | with a positive reported time the measurement is irrelevant; (1.0, 12.5) gives 12.5 and (0.0, 0.0) gives 0.01; no reported time behaves like 0 |
| StartTask.Hundredths | src/use_cases/start_task.py:60 | the hundredths count `:.2f` prints is within half a hundredth of the value, and even on an exact tie |
| StartTask.TwoDigits | src/use_cases/start_task.py:60 | the two-digit fraction of `:.2f` is two digits whose value is the number |
| StartTask.FormatFixed2Value | src/use_cases/start_task.py:60 | the printed time reads back as the rounded value, within 0.005 of the real one |
| StartTask.ElapsedNeverPrintsZero | src/use_cases/start_task.py:60-73 | the reported time is at least 0.01 s, so the line never reads `0.00s` |
| StartTask.FormatFixed2Example | tests/test_start_task_use_case.py:112 | 42.5 prints as `42.50` |
| StartTask.FilterTruthy | src/use_cases/start_task.py:55-56 | `filter(None, ...)` keeps at most as many items as it is given |
| StartTask.RepositoryLine | src/use_cases/start_task.py:59 | the repository line is never empty |
| StartTask.ElapsedLine | src/use_cases/start_task.py:60 | the time line is never empty |
| StartTask.FilesLine | src/use_cases/start_task.py:47 | the files line is never empty |
| StartTask.FilterCons | src/use_cases/start_task.py:55-56 | filtering a list is filtering its head, then its tail |
| StartTask.FilterAppend | src/use_cases/start_task.py:55-56 | filtering a concatenation filters each part |
| StartTask.FilterThree | src/use_cases/start_task.py:55-56 | filtering three items keeps each on its own |
| StartTask.FilterSix | src/use_cases/start_task.py:53-67 | filtering the six candidate lines keeps each on its own |
| StartTask.NotificationLinesInOrder | src/use_cases/start_task.py:40-67 | the message lines: the status first, then the repository and the time, an `Inicio` and a `Fin` line exactly when those datetimes are given, and the normalised file count last |
| StartTask.RepositoryShown | src/use_cases/start_task.py:49-51 | the repository shown is the task's stripped name when it has a non-blank one; it is never blank and carries no surrounding whitespace |
| StartTask.StartChoosesChat | src/use_cases/start_task.py:90-100 | `start` fails exactly when there is neither a stored nor a fallback id; the stored id wins; the fallback is used only when nothing is stored |
| StartTask.StartNormalizesRequest | src/use_cases/start_task.py:103-112 | the started task copies the request, with the count normalised and a blank repository name dropped to `None` |
| StartTask.NotificationSink.constructor | src/use_cases/ports.py:12-13 | no message sent yet |
| StartTask.NotificationSink.SendMessage | src/use_cases/ports.py:13 | every call is recorded, whether it raises or not; it returns normally exactly when it does not raise |
| StartTask.SummaryStartsWithStatus | src/use_cases/start_task.py:40-67 | every summary message starts with its status line |
| StartTask.NotificationAttempts | src/use_cases/start_task.py:123-139 | one or two `send_message` calls, all to the task's conversation; two exactly when not forced to fail and the success send raises, the second then starting with `Falló`; the first starts with `Terminé` exactly when not forced to fail, else with `Falló`; the last starts with `Terminé` exactly when the success send went through |
| StartTask.MessageStartsWithFirstLine | src/use_cases/start_task.py:53 | the joined message starts with its first line, the status |
| StartTask.StartTaskUseCase.constructor | src/use_cases/start_task.py:14-26 | the configured repository name is stripped or defaulted once |
| StartTask.StartTaskUseCase.Start | src/use_cases/start_task.py:75-112 | the result is the chosen conversation with the normalised request; only the fallback path writes, storing the fallback id in memory and leaving the state and `.tmp` files as the persist outcome does; a stored id or a failure leaves the store untouched |
| StartTask.StartTaskUseCase.RunTaskAndNotify | src/use_cases/start_task.py:114-139 | the `send_message` calls made are exactly `Notifications`: the success summary unless forced to fail, then the failure summary after a forced failure or a raising success send; an exception escapes exactly when the failure send is made and raises |
| Controllers.BackgroundQueue.constructor | src/interface_adapters/controllers/tasks_controller.py:14 | nothing scheduled yet |
| Controllers.BackgroundQueue.Schedule | src/interface_adapters/controllers/tasks_controller.py:18 | one task is appended |
| Controllers.TasksController.constructor | src/interface_adapters/controllers/tasks_controller.py:9-10 | keeps the use case |
| Controllers.TasksController.HandleStartTask | src/interface_adapters/controllers/tasks_controller.py:12-19 | a failing `start` schedules nothing; otherwise exactly the started task is scheduled once and its presentation is returned; on the fallback path the fallback id is stored and the files end as the persist outcome leaves them, and otherwise the store is untouched |
| Controllers.TelegramController.constructor | src/interface_adapters/controllers/telegram_controller.py:12-18 | keeps both use cases |
| Controllers.TelegramController.HandleWebhook | src/interface_adapters/controllers/telegram_controller.py:20-28 | a rejected secret propagates with no state change; otherwise the body is `present_webhook_result` of the extracted id, a found id is stored and the files end as the persist outcome leaves them, and no id leaves the store untouched |
| Controllers.TelegramController.HandleLastChat | src/interface_adapters/controllers/telegram_controller.py:30-31 | the body is `present_last_chat` of the stored id |
| TaskPresenter.ToUtcIsoAppendsZ | src/interface_adapters/presenters/task_presenter.py:9-11 | a UTC ISO text without an offset is rendered with `Z` appended |
| TaskPresenter.ToUtcIsoExample | tests/test_start_task_use_case.py:113 | `2026-02-17T21:34:10` renders as `2026-02-17T21:34:10Z` |
| TaskPresenter.PresentTaskStarted | src/interface_adapters/presenters/task_presenter.py:14-25 | the body has exactly the nine keys of the response, optional ones included |
| TaskPresenter.PresentTaskStartedRoundTrip | src/interface_adapters/presenters/task_presenter.py:16-22 | `status` is `started`, and chat id, duration, flag, count, repository and execution time come back unchanged from the body |
| TaskPresenter.PresentedDatetimes | src/interface_adapters/presenters/task_presenter.py:6-11 | an absent datetime is presented as `null`; a present one as its UTC text followed by `Z` |
| TelegramPresenter.PresentWebhookResult | src/interface_adapters/presenters/telegram_presenter.py:4-5 | exactly `ok` (always true) and `captured_chat_id` |
| TelegramPresenter.PresentLastChat | src/interface_adapters/presenters/telegram_presenter.py:8-9 | exactly `last_chat_id` |
| TelegramPresenter.PresentedIdsRoundTrip | src/interface_adapters/presenters/telegram_presenter.py:4-9 | a client reads back exactly the id presented, `null` included |
| LogSafety.Stars | src/shared/log_safety.py:6 | `"*" * n` is `n` stars |
| LogSafety.MaskIdentifier | src/shared/log_safety.py:1-7 | the mask is empty exactly when the text is blank |
| LogSafety.MaskIgnoresSurroundingSpace | src/shared/log_safety.py:2 | the mask depends only on the stripped text |
| LogSafety.ShortTextFullyHidden | src/shared/log_safety.py:5-6 | text of at most prefix+suffix characters becomes that many stars |
| LogSafety.LongTextShape | src/shared/log_safety.py:7 | longer text with a positive suffix is prefix+3+suffix long, starts with the first `prefix` chars, then `***`, then ends with the last `suffix` chars |
| LogSafety.MaskLongText | src/shared/log_safety.py:7 | longer text with a positive suffix is head + `***` + tail |
| LogSafety.MaskedShape | src/shared/log_safety.py:7 | positions of head, stars and tail in `head***tail` |
| LogSafety.ZeroSuffixShowsEverything | src/shared/log_safety.py:7 | with suffix 0, `text[-0:]` is the whole text, which then ends the mask |
| LogSafety.MaskChatIdExample | src/use_cases/process_telegram_webhook.py:30 | `123456789` masks to `12***89` |
| LogSafety.MaskEmail | src/shared/log_safety.py:10-13 | without `@` the address is masked one and one |
| LogSafety.MaskEmailKeepsDomain | src/shared/log_safety.py:14-15 | with `@`, the local part before the first `@` is masked one and one and the domain is kept verbatim |
| LogSafety.SplitIsUnique | src/shared/log_safety.py:14 | the split at the first `@` is unique |
| Config.WordsDisjoint | src/shared/config.py:10-13 | no word is both a true word and a false word |
| Config.ParseBool | src/shared/config.py:6-14 | blank gives the default; the true words give true, the false words false; a result that differs from the default comes from a recognised word |
| Config.ParseBoolIgnoresCase | src/shared/config.py:7 | the letter case of the value does not matter |
| Config.ParseBoolIgnoresSpace | src/shared/config.py:7 | surrounding whitespace does not matter |
| Config.ParseBoolOfWord | src/shared/config.py:7-14 | on a trimmed word, the lower-cased word alone decides |
| Config.ParseBoolExamples | tests/test_shared_config.py:51 | `invalid` keeps the default false |
| Config.ParseBoolUpperCaseExample | src/shared/config.py:7-11 | `ON` reads as true |
| Config.ParseIntOr | src/shared/config.py:17-24 | the integer `int()` reads from the value, else the default |
| Config.ParseOptionalInt | src/shared/config.py:31-38 | the integer `int()` reads from the value, else `None` |
| Config.ParseIntParsersAgree | src/shared/config.py:17-38 | the default is used exactly where the optional parser gives `None`; blank gives `None` |
| Config.ParseIntOrRoundTrip | src/shared/config.py:17-38 | every `str(n)` reads back as `n` in both parsers |
| Config.ParseIntExamples | tests/test_shared_config.py:52-53 | `""` and `abc` give the default 8 |
| Config.ParseOptionalIntExamples | tests/test_shared_config.py:54-55 | `""` and `nan` give `None` |
| Config.KeepItems | src/shared/config.py:28 | the kept items are non-empty and stripped, no more than the parts |
| Config.ParseCsv | src/shared/config.py:27-28 | every item is non-empty, stripped and free of commas |
| Config.KeepItemsWithout | src/shared/config.py:28 | a character absent from every part is absent from every item |
| Config.KeepCleanItems | src/shared/config.py:28 | clean items are all kept, unchanged and in order |
| Config.ParseCsvRoundTrip | src/shared/config.py:27-28 | `parse_csv(",".join(items)) == items` for clean items |
| Config.ParseCsvIdempotent | src/shared/config.py:27-28 | re-joining and re-parsing a parsed list changes nothing |
| Config.ParseEnvLine | src/shared/config.py:47-53 | an assignment's key is stripped and has no `=`; its value neither starts nor ends with `'` (it may still start with `"`, as `x='"v"'` gives `"v"`) |
| Config.AssignmentFromRawLine | src/shared/config.py:47-53 | the key is the stripped text before the first `=` of the raw line, and the value the stripped text after it with `"` and then `'` removed from both ends |
| Config.SkippedLines | src/shared/config.py:47-49 | a line sets nothing exactly when it is blank, a `#` comment or without `=` |
| Config.EqualsSurvivesStrip | src/shared/config.py:47-48 | `=` is in the stripped line exactly when it is in the raw one |
| Config.AssignmentLineRoundTrip | src/shared/config.py:51-53 | `key=value` reads back as that key and value for a real key and a plain value |
| Config.AssignmentLineTrimmed | src/shared/config.py:47 | `key=value` of trimmed parts is already stripped |
| Config.AssignmentLineSplits | src/shared/config.py:51 | the split at the first `=` gives back key and value when the key has no `=` |
| Config.PlainValueKept | src/shared/config.py:53 | a plain value survives the whitespace and quote stripping |
| Config.ParseLines | src/shared/config.py:46-53 | every line is parsed on its own, in order |
| Config.LoadNeverOverwrites | src/shared/config.py:54-56 | variables already set keep their values; the loaded keys are exactly the new variables, none empty, each once |
| Config.LoadCoversEntries | src/shared/config.py:46-56 | every line assigning a non-empty key leaves that key set |
| Config.FirstDefinitionWins | src/shared/config.py:54-56 | a loaded variable holds the value of the first line defining it |
| Config.LoadExample | tests/test_shared_config.py:64-70 | comment, line without `=`, blank line, assignment: only the assignment's key is loaded |
| Config.Environment.constructor | src/shared/config.py:41 | the environment as given |
| Config.Environment.LoadEnvFile | src/shared/config.py:41-58 | a missing file changes nothing and returns `[]`; an unreadable file raises and changes nothing; otherwise the new environment and the returned keys are the specified effect of the file's lines, in order |
| Config.InvalidFields | src/shared/config.py:102-119 | a name is listed exactly when it is one of the names and its setting is invalid |
| Config.InvalidFieldsSnoc | src/shared/config.py:102-119 | checking one more name appends it exactly when it is invalid |
| Config.NoInvalidFields | src/shared/config.py:121 | with no invalid setting the list is empty |
| Config.AllInvalidFields | src/shared/config.py:102-119 | with every setting invalid the list is all names, in order |
| Config.CollectMissingFields | src/shared/config.py:102-119 | the eight checks in order: the list is exactly the invalid critical settings, in the fixed order |
| Config.StartupError | src/shared/config.py:101-138 | there is no error exactly when every start-up condition holds |
| Config.ValidateStartupSettings | src/shared/config.py:101-138 | raises exactly when the settings are not valid, with the message of the first failed check |
| Config.MissingFieldsReportedFirst | src/shared/config.py:121-123 | missing settings are reported before any other check, all of them, in the fixed order |
| Config.BaseSettingsValid | tests/test_config_startup_validation.py:49-51 | the base settings pass, SMTP without authentication included |
| Config.UnknownAppEnvRejected | tests/test_shared_config.py:93-98 | an unknown `APP_ENV` gets its own message |
| Config.WildcardCorsRejected | tests/test_shared_config.py:101-106 | `*` among the origins is rejected in production |
| Config.PartialSmtpAuthRejected | tests/test_config_startup_validation.py:54-59 | a user name without a password is rejected |
| Config.AllCriticalFieldsReported | tests/test_shared_config.py:73-90 | with every critical setting broken, all eight are listed, in order |
| Decimal.DigitChar | src/interface_adapters/gateways/file_chat_state_gateway.py:51 | a digit value prints as a digit character |
| Decimal.DigitValue | src/interface_adapters/gateways/file_chat_state_gateway.py:36 | a digit character reads as a value below ten |
| Decimal.TwoDigitsValue | src/use_cases/start_task.py:60 | two digits read as tens and units |
| Decimal.NatToString | src/interface_adapters/gateways/file_chat_state_gateway.py:51 | `str(n)` of a natural is at least one digit |
| Decimal.IntToString | src/interface_adapters/gateways/file_chat_state_gateway.py:51 | `str(n)`: digits, after a `-` exactly for negatives |
| Decimal.NatToStringValue | src/interface_adapters/gateways/file_chat_state_gateway.py:51 | the digits of `str(n)` have the value `n` |
| Decimal.RemoveUnderscores | src/interface_adapters/gateways/file_chat_state_gateway.py:36 | dropping the `_` separators leaves only digits, and plain digits unchanged |
| Decimal.DigitsAreWellFormed | src/interface_adapters/gateways/file_chat_state_gateway.py:36 | plain digits are a well-formed body with their own value |
| Decimal.ParseIntRoundTrip | src/interface_adapters/gateways/file_chat_state_gateway.py:31-51 | `int(str(n)) == n` for every integer |
| Decimal.IntToStringParses | src/interface_adapters/gateways/file_chat_state_gateway.py:36 | the signed parser reads `str(n)` back as `n` |
| Decimal.IntToStringTrimmed | src/interface_adapters/gateways/file_chat_state_gateway.py:31 | `str(n)` has no surrounding whitespace |
| Decimal.ParseIntIgnoresSurroundingSpace | src/shared/config.py:18-22 | `int()` ignores surrounding whitespace; blank text is rejected |
| Decimal.ParseIntExample | tests/test_file_chat_state_gateway.py:13-18 | `12345` reads as 12345 |
| Decimal.ParseIntRejectsNonDigit | src/interface_adapters/gateways/file_chat_state_gateway.py:36-39 | trimmed text starting with neither a digit nor a sign is rejected |
| Decimal.ParseIntRejectsExamples | tests/test_file_chat_state_gateway.py:21-34 | `invalid` and `""` are rejected |
| PyStr.Strip | src/shared/config.py:7 | `strip()` is empty exactly for blank text, is trimmed and no longer |
| PyStr.StripOr | src/shared/config.py:151 | `s.strip() or fallback`: the fallback for blank text, else the non-empty stripped text |
| PyStr.StripIdempotent | src/shared/config.py:7 | stripping twice is stripping once |
| PyStr.LowerStripCommute | src/shared/config.py:7 | `strip().lower()` equals `lower().strip()` |
| PyStr.Split | src/shared/config.py:28 | `split(",")` gives at least one part, none holding the separator, and they join back to the text |
| PyStr.SplitJoin | src/shared/config.py:28 | splitting a join of separator-free parts gives the parts back |
| PyStr.SplitOnce | src/shared/config.py:51 | `split("=", 1)`: the two sides rebuild the text around the first `=` |
| PyStr.StripIgnoresPadding | src/shared/config.py:47 | whitespace added around a text does not change its `strip()` |
| PyStr.SplitOnceOfStrip | src/shared/config.py:47-52 | splitting the stripped line at its first `=` gives, once each side is stripped, the same key and value text as splitting the raw line |
| PyStr.SplitLines | src/shared/config.py:46 | no line contains a line boundary |
| PyStr.StripChar | src/shared/config.py:53 | `strip(c)` neither starts nor ends with `c` |
| PyStr.ReplaceAtEnd | src/interface_adapters/presenters/task_presenter.py:11 | `replace` touches only the trailing occurrence when the target cannot start earlier |
| LegacyApp.JobQueue.constructor | main.py:229 | nothing scheduled yet |
| LegacyApp.JobQueue.Add | main.py:243-248 | one job is appended |
| LegacyApp.OutcomeText | main.py:160-165 | the message is `Falló` under `force_fail`, else `Terminé` |
| LegacyApp.OutcomeTextsDiffer | main.py:162-165 | the two outcome words differ |
| LegacyApp.LegacyAttemptsShape | main.py:150-165 | with a token, the first request carries the outcome word of `force_fail`; a second one, with the failure word, exactly when not forced to fail and the success send escaped; all go to the job's conversation; without a token there is none |
| LegacyApp.StartedBody | main.py:249-254 | exactly `status`, `chat_id`, `duration_seconds`, `force_fail`, echoing the request |
| LegacyApp.LegacyApp.constructor | main.py:50-105 | the `.env` file is loaded, then the id is restored from the state file |
| LegacyApp.LegacyApp.TelegramWebhook | main.py:168-190 | a mismatched non-empty secret is a 403 with no state change; otherwise the extracted id is stored and echoed, the state and `.tmp` files end as the persist outcome leaves them, and no id changes nothing |
| LegacyApp.LegacyApp.TelegramLastChat | main.py:193-196 | the body is the stored id |
| LegacyApp.LegacyApp.TasksStart | main.py:226-254 | no captured id is a 400 and schedules nothing; otherwise exactly one job for the stored id, with the request echoed |
| LegacyApp.LegacyApp.RunTaskAndNotify | main.py:150-165 | the requests made are exactly `LegacyAttempts`; an exception escapes exactly when there is a token, the failure word is sent and that send escapes |
| LegacyApp.LegacyApp.SendTelegramMessage | main.py:126-147 | a blank token makes no request; otherwise one request is made, an HTTP error is swallowed, and any other exception escapes |
| LegacyApp.CaptureStartNotify | main.py:168-254 | end to end, for any environment with a token and an accepted secret: the captured conversation receives the outcome word of `force_fail`, then the failure word exactly when the success send escaped |
| SetWebhook.MaskToken | scripts/set_telegram_webhook.py:12-15 | `***` up to ten characters; else 13 characters: the first six, `...`, the last four |
| SetWebhook.MaskTokenHides | scripts/set_telegram_webhook.py:12-15 | the mask is at most 13 characters, so a longer token is never shown whole |
| SetWebhook.ParseBoolEnv | scripts/set_telegram_webhook.py:43-55 | missing or blank gives the default; it fails exactly on an unrecognised word, and otherwise agrees with `parse_bool` |
| SetWebhook.BoolParsersDiffer | scripts/set_telegram_webhook.py:52-55 | where it fails, `parse_bool` returns the default instead |
| SetWebhook.CleanBase | scripts/set_telegram_webhook.py:59 | the clean base does not end in `/` or start with whitespace |
| SetWebhook.BuildWebhookUrl | scripts/set_telegram_webhook.py:58-62 | fails, with its message, exactly for an empty clean base; otherwise clean base + `/telegram/webhook` |
| SetWebhook.WebhookUrlShape | scripts/set_telegram_webhook.py:58-62 | a built URL ends with the webhook path after a base that neither starts with whitespace nor ends with `/` |
| SetWebhook.TrailingSlashIgnored | scripts/set_telegram_webhook.py:59 | `build_webhook_url(b + "/") == build_webhook_url(b)` when `b` does not end in whitespace |
| SetWebhook.BuildSetWebhookPayload | scripts/set_telegram_webhook.py:85-90 | always `url` and `drop_pending_updates` as `true`/`false`; `secret_token` exactly when it is non-empty; no other key |
| SetWebhook.ReadSetupEnv | scripts/set_telegram_webhook.py:137-148 | the four variables `main` reads, a missing text variable as "" |
| SetWebhook.ResolveBaseUrl | scripts/set_telegram_webhook.py:65-71 | a blank `WEBHOOK_URL` defers to the tunnel lookup; otherwise its clean base |
| SetWebhook.PrepareSetup | scripts/set_telegram_webhook.py:133-161 | a blank token, an invalid flag, a failed lookup or a blank base each fail before any call, and when none of these happens it succeeds; on success the token is stripped and non-empty, the URL and flag come from the specified parsers, the secret is sent stripped exactly when it is not blank, and no other field is sent |
| RunLauncher.NormalizeWebhookPath | run.py:11-17 | blank gives `/telegram/webhook`; a stripped path with a slash is kept; one without gets a slash prepended |
| RunLauncher.NormalizedPathShape | run.py:11-17 | the result is non-empty, starts with `/` and is trimmed |
| RunLauncher.DefaultPathShape | run.py:14 | the default path is trimmed and starts with `/` |
| RunLauncher.SlashPrefix | run.py:15 | `startswith("/")` means the first character is `/` |
| RunLauncher.SlashPrepended | run.py:16 | `/` before a non-empty trimmed text gives a trimmed path starting with `/` |
| RunLauncher.NormalizeIdempotent | run.py:11-17 | normalising twice is normalising once |
| RunLauncher.BotApi.constructor | run.py:44-47 | no call made yet |
| RunLauncher.BotApi.SetWebhook | run.py:51-55 | records one `setWebhook` call and reports its reply |
| RunLauncher.BotApi.GetWebhookInfo | run.py:60 | records one `getWebhookInfo` call |
| RunLauncher.RegisteredUrl | run.py:42-43 | the public base followed by a path starting with `/` |
| RunLauncher.SecretOrNone | run.py:53 | `secret or None` |
| RunLauncher.ConfigureTelegramWebhook | run.py:33-70 | with automatic registration off or no token nothing is called; otherwise one `setWebhook` with the registered URL, then `getWebhookInfo` exactly when that succeeded |
| CodexRunner.ParseExcludePatterns | scripts/run_codex_and_notify.py:61-64 | blank text gives the five operational defaults |
| CodexRunner.ExcludePatternsClean | scripts/run_codex_and_notify.py:61-64 | every pattern is non-empty, stripped and free of commas |
| CodexRunner.ExcludePatternsRoundTrip | scripts/run_codex_and_notify.py:64 | explicit clean patterns joined with commas are read back as given |
| CodexRunner.ExplicitPatterns | scripts/run_codex_and_notify.py:64 | non-blank text is read as `parse_csv` reads it |
| CodexRunner.JoinNotBlank | scripts/run_codex_and_notify.py:62 | a join whose first part is clean is not blank |
| CodexRunner.NormalizeCodexCommand | scripts/run_codex_and_notify.py:189-192 | one leading `--` is dropped, nothing else changes |
| CodexRunner.NormalizeDropsOnlyOne | scripts/run_codex_and_notify.py:190-191 | a second `--` stays |
| CodexRunner.ResolveCodexCommand | scripts/run_codex_and_notify.py:195-202 | an explicit command is kept; else `codex` when it is on `PATH`, else `npx @openai/codex`; empty exactly when nothing is found |
| CodexRunner.ArgumentError | scripts/run_codex_and_notify.py:219-227 | an error exactly for a negative duration or a non-positive idle or poll interval, with the duration message first |
| CodexRunner.PrepareRun | scripts/run_codex_and_notify.py:210-238 | exit 2 exactly on an argument error, 127 exactly when no command is found, both before launching; otherwise the resolved command, the repository, the endpoint and the patterns |
| CodexRunner.LessIrreflexive | scripts/run_codex_and_notify.py:109 | the string order `sorted` uses is irreflexive |
| CodexRunner.LessTransitive | scripts/run_codex_and_notify.py:109 | and transitive |
| CodexRunner.LessTotal | scripts/run_codex_and_notify.py:109 | and total |
| CodexRunner.MinimumExists | scripts/run_codex_and_notify.py:109 | a non-empty set of paths has a least one |
| CodexRunner.SortedUnique | scripts/run_codex_and_notify.py:109 | two increasing lists of the same paths are equal |
| CodexRunner.ChangedPathsSymmetric | scripts/run_codex_and_notify.py:111 | the changed paths do not depend on the order of the snapshots |
| CodexRunner.NoChangesIffEqual | scripts/run_codex_and_notify.py:109-112 | nothing changed exactly when the snapshots are equal |
| CodexRunner.GetChangedFiles | scripts/run_codex_and_notify.py:107-113 | sorted, no duplicates, a path listed exactly when its entries differ, empty exactly for equal snapshots |
| CodexRunner.ChangedFilesSymmetric | scripts/run_codex_and_notify.py:107-113 | `get_changed_files(a, b) == get_changed_files(b, a)` |
| CodexRunner.IterationMonitor.constructor | scripts/run_codex_and_notify.py:305-307 | the baseline is the last seen snapshot, with the change time now and no iteration notified |
| CodexRunner.IterationMonitor.Sample | scripts/run_codex_and_notify.py:316-389 | a git failure skips the sample; a changed snapshot restarts the idle clock; an iteration is notified exactly when something changed and the idle time has passed, with the changed count; then the baseline is the current snapshot |
| CodexRunner.SortedCount | scripts/run_codex_and_notify.py:343 | the changed count is the number of changed paths |
| CodexRunner.NotifiedBaselineIsClean | scripts/run_codex_and_notify.py:386 | after a notification the same snapshot shows no changes |
| NotifyCommon.BuildPayload | scripts/notify_common.py:42-63 | the four required keys always; `execution_time_seconds` exactly when given (0 included); each datetime exactly when non-empty; every value as given; no other key |
| NotifyCommon.CurlOutbox.constructor | scripts/notify_common.py:66 | nothing posted yet |
| NotifyCommon.CurlOutbox.SendTaskNotification | scripts/notify_common.py:66-104 | without `curl` the `RuntimeError` escapes and nothing is posted, dry run or not; with it a dry run posts nothing and gives 0, otherwise one post with the binary found and `curl`'s exit status |
| NotifyCommon.ResolveCurlBinary | scripts/notify_common.py:34-39 | the first of `curl.exe` and `curl` found on the path, a non-empty path; neither found raises with `No se encontro curl en PATH.` |
| NotifyTask.BuildPayload | scripts/notify_task.py:43-58 | the four required keys always, the execution time exactly when given, every value as given |
| NotifyTask.NotifyTaskMain | scripts/notify_task.py:147-164 | a blank proposal gives 2 and posts nothing; else without `curl` the `RuntimeError` escapes with nothing posted; else one post (none on a dry run) with the stripped proposal and the given or detected repository |
| Smtp.ReplaceChar | src/infrastructure/smtp/smtp_mail_gateway.py:40 | replacing one character by another changes exactly those positions |
| Smtp.Sanitize | src/infrastructure/smtp/smtp_mail_gateway.py:40 | no `\r` or `\n`, no surrounding whitespace, no longer than the input |
| Smtp.SafeText | src/infrastructure/smtp/smtp_mail_gateway.py:38-43 | no line breaks; at most max+3 long; the sanitised text when it fits, else its first `max` characters + `...` |
| Smtp.SanitizeClean | src/infrastructure/smtp/smtp_mail_gateway.py:40 | clean text is left alone |
| Smtp.SafeTextIdempotent | src/infrastructure/smtp/smtp_mail_gateway.py:38-43 | sanitising a safe text again changes nothing |
| Smtp.SafeTextExample | tests/test_infrastructure_smtp_mail_gateway.py:95 | `"a\r\nb"` becomes `"a  b"` |
| Smtp.ExtractSmtpResponseCode | src/infrastructure/smtp/smtp_mail_gateway.py:151-154 | a code exactly for a non-empty tuple whose first item is an `int` (a `bool` included), and it is that item |
| Smtp.ExtractSmtpResponseCodeExamples | src/infrastructure/smtp/smtp_mail_gateway.py:152-154 | a reply tuple gives its code; an empty tuple, a string code and no tuple give `None` |
| Smtp.SmtpMailGateway.constructor | src/infrastructure/smtp/smtp_mail_gateway.py:26-35 | host, user name, sender and recipient are stripped; the password and the rest are kept; authentication is on exactly for a non-blank user name |

## Left out

- Locks and threads (`threading.Lock` in the gateway and in `main.py`), `asyncio.sleep`, the uvicorn server thread and `_wait_for_server_started`: the model is sequential.
- The FastAPI routing, the validation handler (`main.py:199-223`) and the HTTP status mapping; the request bounds of `TaskStartRequest` become `LegacyApp.ValidRequest`.
- The Telegram, ngrok and `getWebhookInfo` HTTP clients and `httpx` errors: sends are recorders, and the tunnel URL and every reply are parameters; `configure_telegram_webhook`'s network part in `scripts/set_telegram_webhook.py:99-130` is not modelled beyond `PrepareSetup`.
- `git`, SHA-256 hashing, `fnmatch` (`should_exclude_path`, `get_working_tree_snapshot`), `shutil.which`, `subprocess` and `curl`: snapshots, lookups and exit statuses are parameters.
- The launch fallback of `scripts/run_codex_and_notify.py:254-292` (retrying with `npx`), `KeyboardInterrupt`, and the debug printing; the polling loop is one `IterationMonitor.Sample` per pass, with time in integer ticks.
- `detect_repository_name` and `parse_args` of the scripts: their results are parameters. `resolve_curl_binary` is modelled, on what `shutil.which` returns for each of its two names.
- `load_settings`: reading every setting from the environment; only the parsers it calls are modelled.
- Logging, request ids, `print` output and log message texts, except the structured event names of the webhook use case.
- The SMTP session, the e-mail message and `_safe_json` (`json.dumps`).
- `src/shared/datetime_utils.py` is not part of this model: datetimes are held as their UTC ISO text (`Task.DateTime`), and the time-zone arithmetic of `astimezone` is not modelled.
- `src/entities/task.py` as present lacks the fields its users pass; `Task.StartedTask` follows `src/use_cases/start_task.py:103-112` and the presenter instead.
- Health endpoint, `get_health.py` and its presenter: they only return a constant.
- `time.perf_counter`: the elapsed times measured at success and at failure are parameters of `StartTask.StartTaskUseCase.RunTaskAndNotify`.
- The Telegram notification gateway and the ports of `src/use_cases/ports.py` are the recorder `StartTask.NotificationSink`; the exception classes of the use cases are `Failure` values.
- StartTask.NotificationSink.SendMessage: records every call but not whether a call that raised still reached Telegram, which the use case cannot observe either.
- LegacyApp.LegacyApp.constructor: a `.env` file that `read_text` cannot read ends the import of `main.py` with the exception; the constructor takes the text of a readable file, or none for a missing one. `Config.Environment.LoadEnvFile` models the failure.
- LegacyApp.LegacyApp.SendTelegramMessage: the exceptions other than `httpx.HTTPError` are one outcome, `Escapes`; which line raised it is not modelled.
- `scripts/dev_setup_webhook.py` and `scripts/get_ngrok_url.py`: they only combine the tunnel lookup with the registration modelled by `SetWebhook`.
- Floats are exact reals: no NaN, infinity or binary rounding.
- StartTask.FormatFixed2: rounds the exact real to hundredths, ties to even, rather than the exact binary value of a double.
- PyStr.Lower: lower-cases ASCII letters only; `Config.ParseBool` and `SetWebhook.ParseBoolEnv` inherit this, which matters only for non-ASCII words, none of which is recognised anyway.
- PyStr.SplitLines: may yield extra empty lines (after a final line break and inside `\r\n`) compared with `str.splitlines()`; the `.env` loader skips blank lines, so the loaded environment is the same.
- Decimal.ParseInt: accepts ASCII digits only; CPython's `int()` also accepts other Unicode decimal digits.
- `mask_identifier(value)` receives `str(value)`; the model receives the text, and for ids it is `Decimal.IntToString`.
- `ProcessTelegramWebhook.ProcessTelegramWebhookUseCase.Execute` and `LegacyApp.LegacyApp.TelegramWebhook` use the corrected integer-only extraction (see Findings).
- `ResolveBaseUrl` followed by `BuildWebhookUrl` strips twice; a `WEBHOOK_URL` such as `"x /"` therefore resolves to `"x "` and builds `"x/telegram/webhook"`. The model does the same, and `TrailingSlashIgnored` carries the hypothesis that the base does not end in whitespace because the claim is false without it.

## Findings

| source | as written | input that shows it | evidently intended | confidence | as-written member | corrected member |
|---|---|---|---|---|---|---|
| src/entities/telegram.py:8 | `isinstance(chat.get("id"), int)` also accepts `True`/`False`, since `bool` is a subclass of `int`; the id `True` is stored, persisted as `"True"`, and lost on restart because `int("True")` fails | `{"message": {"chat": {"id": true}}}` | only genuine integer ids are captured; a boolean id is ignored | not executed | Telegram.BooleanIdCapturedAsWritten | Telegram.ExtractChatId |
