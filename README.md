# usm2jira alarm-to-ticket pipeline in Dafny

usm2jira reads security alarms from a USM (Unified Security Management)
platform and opens Jira issues for the ones that matter. It skips alarms and
ticket contents that earlier runs already posted. This project models the
decision logic of `usm2jira/__script__.py` as four stages:

- **Alarm filter** (`filter_alarms`). An alarm is kept when no existing issue
  records its uuid and some configured template's triggers fire for it.
  - Triggers given as a mapping fire when the alarm field contains the pattern,
    compared case-insensitively with the pattern's `*` stripped.
  - Triggers given as a list fire when the alarm's `rule_strategy` or
    `rule_method` is listed.
  - No templates configured lets nothing through. An empty result ends the run.
- **Ticket builder** (`tickets_from_alarms`). This stage runs in two passes.
  - The first pass pops every alarm's last sensor in place. It builds a ticket
    record of derived keys followed by the alarm's own fields.
  - The second pass selects, for each ticket, the first template whose
    triggers contain its rule. It then substitutes `$key` placeholders into
    the title and description. In the description lines only, it replaces
    each leftover `$name` token by `unknown` as raw text. The title keeps its
    leftovers.
  - Selection uses Python's `in` on the triggers. That is key membership for a
    mapping, not the filter's pattern test.
  - Templates are copied shallowly, so the description list is shared. Each
    ticket's rendered description is written back into the configured
    template, and every later ticket of that template shares it.
- **Duplicate filter** (`filter_duplicate_tickets`). A ticket is dropped when
  the fingerprint of its template's title and description is already
  recorded on an issue. A ticket without a template stops the run with a
  `KeyError`.
- **Recording**. After a ticket is pushed, its uuid and fingerprint are
  stored on the new issue. This is what makes the two filters drop it on the
  next run.

Files:

- `Records.dfy`: the dictionaries, the faults that end a run, and the stage
  outcome. A stage outcome is a list to continue with, `exit(0)`, or an abort.
- `Strings.dfy`: Python string helpers used by the model.
- `Templates.dfy`: the two trigger tests.
- `Alarms.dfy`: the alarm filter as specification functions.
- `Rendering.dfy`: placeholder substitution.
- `Placeholders.dfy`: the `unknown` fallback.
- `Traversal.dfy`: the shared shape of a loop that stops at the first raising
  element.
- `Tickets.dfy`: the ticket builder as specification functions.
- `Dedup.dfy`: the duplicate filter and the recording step.
- `Pipeline.dfy`: the `usm` configuration as a class `Usm`. Its mutable
  `templates` field is the store the builder rewrites. Its methods are the
  loops as written, each proved equal to the specification functions.

## Model

| member | source | states |
|---|---|---|
| Records.Update | usm2jira/__script__.py:343 | `ticket.update(alarm)`: existing keys keep their place, new keys go last, and every key of the alarm reads the alarm's value |
| Records.UpdateKeys | usm2jira/__script__.py:343 | the updated dictionary's keys are its own keys followed by the alarm's new keys in the alarm's order |
| Alarms.PropertyValues | usm2jira/__script__.py:290-291 | a value is collected exactly when some issue carries a non-empty property of that name with that value |
| Alarms.Inspect | usm2jira/__script__.py:292-312 | looking at an alarm raises exactly when it has no uuid, or it was not posted and some template's triggers break on it; otherwise the alarm is kept exactly when it was not posted, no template breaks and some template's triggers fire, both tests stated template by template |
| Alarms.ScreenKeepsInOrder | usm2jira/__script__.py:292-312 | the kept alarms are the input at increasing positions, and position `i` is among them exactly when alarm `i` passes |
| Alarms.ScreenRaises | usm2jira/__script__.py:292-312 | the loop raises exactly when some alarm raises, and then with the fault of the first such alarm |
| Alarms.PostedNeverKept | usm2jira/__script__.py:290-294 | an alarm whose uuid is recorded on an issue is never kept |
| Templates.PatternsFireMeaning | usm2jira/__script__.py:299-303 | a mapping of triggers raises exactly when some pair names a field that is present but not text; otherwise it fires exactly when some pair's stripped, lower-cased pattern occurs in the lower-cased field |
| Templates.TemplateFiresMeaning | usm2jira/__script__.py:299-309 | one template's test raises exactly when it breaks and otherwise fires exactly when the template fires, for mappings, lists and absent triggers |
| Templates.AnyFiresMeaning | usm2jira/__script__.py:296-311 | the filter's test raises exactly when some template breaks; otherwise it admits the alarm exactly when some template fires |
| Templates.SelectFromMeaning | usm2jira/__script__.py:348-352 | selection yields the first selecting template, none when every template declines, or the fault of the first raising template before any selects |
| Templates.SelectFromTriggersOnly | usm2jira/__script__.py:348-352 | selection reads only the templates' triggers, so rendered descriptions never change which template a later ticket gets |
| Templates.NamesAgree | usm2jira/__script__.py:349-350 | for a list of rule names and text rule fields, selection agrees with the filter's test |
| Templates.PatternAdmitsButDoesNotSelect | usm2jira/__script__.py:349-350 | a mapping `{"rule_strategy": "*C&C*"}` lets a "C&C Communication" alarm through the filter, yet the builder selects no template for it |
| Pipeline.Usm.constructor | usm2jira/__script__.py:326 | the configured templates and sensor names are the object's state |
| Pipeline.Usm.MatchPairs | usm2jira/__script__.py:299-303 | the loop over a mapping's pairs computes `PatternsFire`, raising on the first non-text field |
| Pipeline.Usm.Triggered | usm2jira/__script__.py:296-309 | the loop over all templates computes `AnyFires`, testing every template even after one fired |
| Pipeline.Usm.FilterAlarms | usm2jira/__script__.py:281-320 | the stage returns `FilterStep`: nothing when no templates are configured, `exit(0)` when nothing survives, the first fault, or the kept alarms |
| Tickets.DateShape | usm2jira/__script__.py:342 | the date token has at most eight characters and no `-` |
| Tickets.DateOfIsoTimestamp | usm2jira/__script__.py:342 | for `YYYY-MM-DD...` the date token is the two-digit year, the month and the day run together |
| Tickets.SensorName | usm2jira/__script__.py:338-341 | a sensor's display name is never empty |
| Tickets.SensorNameJoined | usm2jira/__script__.py:338-341 | joining the configured names of the sensors equal to the popped one, in key order, and falling back to `Unknown` gives the sensor's configured name, or `Unknown` when it has none or an empty one |
| Tickets.Derived | usm2jira/__script__.py:331-342 | the derived keys are written in the source's order, each once: the alarm's uuid, its timestamp, its priority label, its source and destination names (empty when missing), the popped sensor, its display name and the date token |
| Tickets.Prepare | usm2jira/__script__.py:331-342 | an alarm becomes a ticket record exactly when uuid, timestamp and priority are present, the sensor list is a non-empty list and the timestamp is text |
| Tickets.PrepareSpec | usm2jira/__script__.py:329-343 | the pop removes the last sensor and nothing else: the keys stay in order and every other field keeps its value |
| Tickets.PrepareFields | usm2jira/__script__.py:329-343 | the record's keys are the derived keys followed by the alarm's other keys in the alarm's order; every alarm field reads as popped, and each derived key the alarm lacks keeps its derived value |
| Tickets.PreparedValues | usm2jira/__script__.py:329-343 | for an alarm with no key of a derived name, the record holds its uuid, timestamp, priority, source and destination names, the popped sensor, its name and the date |
| Tickets.PrepareAllEach | usm2jira/__script__.py:328-344 | when the first pass succeeds, record `i` is what alarm `i` gives |
| Tickets.PoppedUpToAll | usm2jira/__script__.py:328-344 | after a successful first pass, every alarm in the list is the popped alarm its preparation gives |
| Tickets.PrepareAllFault | usm2jira/__script__.py:328-344 | when the first pass fails, it fails with the fault of the first raising alarm, all earlier alarms having succeeded |
| Pipeline.Usm.PrepareAlarms | usm2jira/__script__.py:328-344 | the loop over the alarm array computes `PrepareAll`, and leaves every alarm before the first raising one popped and the rest untouched |
| Rendering.Joined | usm2jira/__script__.py:362-363 | joining a list gives a text value with the same text, and no other value changes |
| Rendering.SubstituteIsReplace | usm2jira/__script__.py:361-365 | the `key in text` guard never changes the outcome of replacing `$key` |
| Rendering.SubstituteDollarFree | usm2jira/__script__.py:371-374 | text without `$` is left unchanged by a substitution |
| Rendering.PrefixKeyRewritesLongerPlaceholder | usm2jira/__script__.py:364-365 | key `src` rewrites the placeholder `$src_ip` to `10.0.0.1_ip` |
| Rendering.RenderFieldsPerText | usm2jira/__script__.py:357-375 | the title and each line are rendered independently, as `RenderText` says; keys keep their order, values keep their text, only lists may be joined, `_` keys untouched |
| Rendering.PrivateKeysIgnored | usm2jira/__script__.py:358-359 | keys starting with `_` never affect rendered text |
| Rendering.RenderTextDollarFree | usm2jira/__script__.py:371-374 | text without `$` renders to itself |
| Rendering.ReplaceInLines | usm2jira/__script__.py:370-375 | the inner loop substitutes the key in every line in place and joins the value exactly when the key name occurs in some line |
| Rendering.RenderKeys | usm2jira/__script__.py:357-375 | the loop over the ticket's keys computes `RenderFields` |
| Placeholders.Tokens | usm2jira/__script__.py:378 | every match of `\$[\w-]*` is a `$` followed by no further `$` |
| Placeholders.TokensAreWordRuns | usm2jira/__script__.py:378 | every match is a `$` followed only by `[\w-]` characters |
| Placeholders.TokensOfOne | usm2jira/__script__.py:378 | in a line with one `$`, the match is the `$` with the whole run of `[\w-]` characters after it |
| Placeholders.TokensOfTwo | usm2jira/__script__.py:378 | two placeholders separated by text that does not continue the first are the two matches, in order |
| Placeholders.TokensOfHazard | usm2jira/__script__.py:378 | `$a $ab` has the matches `$a` and `$ab`, in that order |
| Placeholders.FallbackOneToken | usm2jira/__script__.py:377-380 | a line with one placeholder `$w` gets exactly that placeholder replaced by `unknown`, and nothing else changes |
| Placeholders.FallbackPrefixHazard | usm2jira/__script__.py:377-380 | the line `$a $ab` falls back to `unknown unknownb`: replacing `$a` everywhere also eats the head of `$ab` |
| Placeholders.FallbackDollarFree | usm2jira/__script__.py:377-380 | after the fallback no line contains `$` |
| Placeholders.FallbackOfDollarFree | usm2jira/__script__.py:377-380 | a line without `$` passes the fallback unchanged |
| Placeholders.ReplaceUnresolved | usm2jira/__script__.py:377-380 | the loop computes the fallback of every line, and no line keeps a `$` |
| Tickets.BuildOneSpec | usm2jira/__script__.py:347-382 | one ticket: the first selecting template is used, its title rendered on the copy, its description rendered into the store and free of `$`, other store entries untouched, an already rendered description left as is |
| Tickets.BuildOneFields | usm2jira/__script__.py:357-375 | the ticket keeps the record's keys in order and every value's text |
| Tickets.BuildShape | usm2jira/__script__.py:346-383 | one ticket per record; the store changes only in descriptions; a changed description holds no `$`; a template no ticket used is left as configured |
| Tickets.BuildEach | usm2jira/__script__.py:346-383 | ticket `i` was selected against the configured store, its title is the configured title rendered with its own record, and its description is the very list the final store holds for its template |
| Tickets.BuildFields | usm2jira/__script__.py:346-383 | ticket `i` keeps record `i`'s keys in order and every value's text |
| Tickets.BuildOneTemplate | usm2jira/__script__.py:347-382 | a record that one template selects gets a ticket with that template |
| Tickets.BuildNoTemplates | usm2jira/__script__.py:348-355 | with no templates configured, a ticket keeps its record and gets no template |
| Tickets.BuildPrivate | usm2jira/__script__.py:357-359 | rendering leaves every `_` key of ticket `i` as its record had it |
| Tickets.OneAlarmRun | usm2jira/__script__.py:323-383 | one alarm that can be prepared and no templates give one ticket, the alarm's record, without a template |
| Tickets.OneAlarmUuid | usm2jira/__script__.py:323-383 | for an example alarm with any uuid the whole stage succeeds and its ticket carries that uuid |
| Tickets.OneAlarmSelected | usm2jira/__script__.py:323-383 | one alarm whose rule strategy a template lists gives one ticket, rendered from that template |
| Tickets.PreparedUuid | usm2jira/__script__.py:331-343 | the prepared record carries the alarm's uuid under `_uuid` when the alarm has no `_uuid` field of its own |
| Tickets.PreparedKeeps | usm2jira/__script__.py:336-343 | every alarm field other than the sensor list reads the same in the prepared record |
| Tickets.TicketUuid | usm2jira/__script__.py:331-359 | ticket `i` carries under `_uuid` the uuid of alarm `i` when the alarm has no `_uuid` field of its own |
| Tickets.BuildFirstUse | usm2jira/__script__.py:346-383 | the first ticket using a template renders the configured description with its own record |
| Pipeline.Usm.SelectFor | usm2jira/__script__.py:348-352 | the loop over the templates computes `SelectTemplate`: the first template whose triggers hold the rule, none, or the first fault |
| Pipeline.Usm.BuildTicket | usm2jira/__script__.py:347-382 | one ticket built on the object's store, and the store it leaves, are `BuildOne`'s |
| Pipeline.Usm.RenderTickets | usm2jira/__script__.py:346-383 | the second pass returns `BuildRun`'s tickets or fault and leaves its store |
| Pipeline.Usm.TicketsFromAlarms | usm2jira/__script__.py:323-383 | the stage pops the alarms as `PoppedUpTo` says and returns `TicketsRun`'s result and store |
| Dedup.FilterDuplicateTickets | usm2jira/__script__.py:386-407 | the stage returns `DedupStep`: the first fault, `exit(0)` when nothing survives, or the surviving tickets |
| Dedup.PruneFails | usm2jira/__script__.py:392-395 | the loop raises exactly when some ticket has no template, and then with `KeyError('template')` |
| Dedup.PruneKeepsInOrder | usm2jira/__script__.py:392-399 | the surviving tickets are the input at increasing positions, and ticket `i` survives exactly when its fingerprint is not recorded |
| Dedup.PruneIdempotent | usm2jira/__script__.py:392-399 | pruning the survivors again changes nothing |
| Dedup.Recorded | usm2jira/__script__.py:490-497 | the new issue records the ticket's fingerprint, and its uuid exactly when the uuid is text |
| Dedup.RecordedIsDuplicate | usm2jira/__script__.py:490-497 | once recorded, every ticket with the same title, description and key order is a duplicate on the next run |
| Dedup.RecordedIsPosted | usm2jira/__script__.py:490-497 | once recorded, the alarm with that uuid is dropped by the next run's alarm filter |
| Dedup.BuiltTicketRecordedIsPosted | usm2jira/__script__.py:490-497 | once ticket `i` of a run is recorded, alarm `i` of that run is dropped by the next run's alarm filter, when the alarm has a non-empty text uuid and no `_uuid` field of its own |
| Dedup.ExampleRecordedIsPosted | usm2jira/__script__.py:490-497 | for an example alarm with any non-empty uuid, the builder renders its ticket from the example template, and once that ticket is recorded the next run drops the alarm although the template still fires |

Behaviour the code has that a reader might not expect:

- **Fingerprint key order.** The fingerprint serialises `title` and
  `description` in the order the template lists them, not in a fixed order.
  `Dedup.Content` records which key comes first.
- **Shared descriptions.** The configured templates are mutable shared state
  across tickets of one run. `Tickets.BuildEach` and `Tickets.BuildFirstUse`
  state the consequence.
- **A faulty alarm ends the stage.** A malformed alarm or template raises,
  and the whole builder stage aborts with that fault. It does not skip the
  alarm and carry on. `Tickets.PrepareAllFault` and `Tickets.BuildRun` model
  the abort.
- **Text replacement, not a placeholder scanner.** Substitution replaces
  `$key` everywhere as raw text, and the fallback replaces each found token
  the same way. A key or token that is a prefix of a longer placeholder
  rewrites part of it. `Rendering.PrefixKeyRewritesLongerPlaceholder` and
  `Placeholders.FallbackPrefixHazard` show both cases.

## Left out

- Configuration loading, the HTTP calls to the USM and Jira APIs, Slack
  notifications, the issue creation payload and logging are I/O and are not
  modelled. `push_tickets` is reduced to the properties it records on a new
  issue.
- `hashlib.md5(json.dumps(...))` is the parameter `digest`, a function of the
  fingerprinted content. Its collision resistance is not modelled, and
  `Dedup.RecordedIsDuplicate` asks for a non-empty digest.
- `str.lower()` and the regular-expression class `\w` are modelled on ASCII
  only. Python applies them to all of Unicode.
- JSON values are text, lists of text, or other scalars kept as their
  `str()` text. Lists holding non-text elements, nested objects, patterns that
  are not text, and triggers that are text or numbers are not modelled.
  - Triggers that are missing or null are `Absent`.
- A template lacking `title` or `description`, which makes the source raise,
  is not modelled. Every template has both.
- An alarm field named `template` would be overwritten by the builder's own
  `template` key. The model keeps the ticket's template apart from its fields.
- Tickets.Prepare: when an alarm's timestamp is not text, the source has
  already popped that alarm's sensor before raising. The model leaves the
  failing alarm unpopped.
  - The run aborts at that point, so the difference is never observed.
  - The same holds for `Pipeline.Usm.PrepareAlarms` and `Tickets.PoppedUpTo`.
- Dedup.Recorded: issue properties are text only, so a uuid that is not text
  is not stored on the issue. The source stores the raw JSON value.
  `Alarms.Posted` likewise compares only text uuids. An alarm with a numeric
  uuid that was posted before is therefore dropped by the source on the next
  run, but kept by the model.
- `exit(0)` is the outcome `Exit` of a stage, and an exception is the outcome
  `Abort` or an `Err` result. Nothing after the stage is modelled.
