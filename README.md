# Caregiver escalation engine — a Dafny model

The alerting application of the IFT785 project receives sensor alerts for
the homes of elderly residents and escalates each alert along a *chain of
responsibility* of caregiver tiers:

- **Tier zero** is the resident's own level-0 assignment. When it exists,
  tier zero records a notification and arms a 30-second timer. That timer's
  expiry arms a 10-second reminder (30 − 20). Only the reminder's expiry
  passes the alert on.
- **Tiers one, two and three** pass the alert on (their `handle` is the
  base class's). Each also offers `get_caregivers`, a separate query for the
  assignments of its level for the resident, which `handle` does not call.

A `ChainManager` keeps the heads of the chains in flight. An
`ApplicationInitializer` holds one start-up chain. A `post_migrate` signal
seeds the four tier rows. A notification is delivered as a message whose
body carries a confirmation link built from the notification's token.

The model is in Dafny. Each file is one module:

| file | module | what it holds |
|---|---|---|
| `wrappers.dfy` | `Wrappers` | `Option` and `Result` |
| `collections.dfy` | `Collections` | `Filter` (what a Django `filter` returns), removing the first occurrence, string-occurrence predicates |
| `decimal.dfy` | `Decimal` | decimal text of integers, as an f-string writes them |
| `config.dfy` | `Config` | the settings the code reads: domain, confirmation path, tier-one wait time |
| `models.dfy` | `Models` | the records of `api/models.py`: defaults, uniqueness constraints, `__str__` |
| `lookup.dfy` | `Lookup` | the queries of the tier handlers and `CaregiverLevel.objects.get` |
| `handlers.dfy` | `Handlers` | the handler class, chain traversal, the tier-zero timer state machine, the tier constructors |
| `chain_manager.dfy` | `ChainManagement` | the chain registry, its singleton, `remove_chain` |
| `initializer.dfy` | `Initialization` | the start-up chain and its singleton |
| `seeding.dfy` | `Seeding` | `populate_caregiver_levels` on the tier table |
| `notification_sender.dfy` | `NotificationSender` | the confirmation link, `deliver_notification` |
| `notification_level_three.dfy` | `NotificationLevelThree` | the level-three subject and body |
| `escalation.dfy` | `Escalation` | one alert's whole life on a standard chain |

How the source's constructs are modelled:

- **Handler classes.** The four handler classes are one Dafny class,
  `Handlers.Handler`, tagged with its tier (`Kind`).
- **Links.** `next` and `head` are mutable fields.
- **Chains.** A chain is a finite, acyclic run of `next` links. The methods
  that travel it take that run as a ghost sequence (`IsChain`). They return,
  as a ghost result, the handlers whose `handle` ran. That result is proved
  equal to the specification function `Visited`.
- **Timers.** The `threading.Timer` in `_timer` is a single timer slot
  (`Idle`, or `Armed(delay, event)`). Its expiry is the method `Fire`.
- **Database.** Tables are sequences of rows passed in as values.
- **Singletons.** The singleton metaclasses are explicit objects
  (`SingletonMeta`, `ApplicationInitializerMeta`) whose `Call` creates the
  instance once.

## Model

| member | source | states |
|---|---|---|
| Models.PersonStr | api/models.py:13-14 | the text is exactly "first last (email)": it opens with "first last", ends with " (email)", and its length leaves nothing in between |
| Models.NewCaregiverLevel | api/models.py:24-25 | a tier row created without a wait time has the given level and wait time 600 |
| Models.ChoiceLabelFound | api/models.py:28 | `dict(choices)[key]` yields the label of the last pair carrying the key |
| Models.ChoiceLabelMissing | api/models.py:28 | a key no pair carries has no label (the lookup raises) |
| Models.CaregiverLevelStr | api/models.py:17-28 | a label exists exactly for levels 0..3, and it is "Level n" |
| Models.ChoiceLabel | api/models.py:28 | no label exactly when no pair carries the key; a label found is the label of a pair carrying the key |
| Models.CaregiverStr | api/models.py:39-40 | the text exists exactly when the level has a label, and is then exactly "Caregiver: <caregiver> - Elderly: <elderly> - Level: Level n": opening, the elderly text right after it, closing, and a length that leaves nothing else |
| Models.HomeStr | api/models.py:47-48 | exactly "Home: h - Elderly: " followed by the resident's text, or by "None" when there is no resident; the length leaves nothing else |
| Models.SensorAlertStr | api/models.py:60-61 | an alert prints exactly as its home: "Home: h - Elderly: " and the resident's text or "None", nothing else |
| Models.NewSensorAlert | api/models.py:58 | a new alert is unresolved and keeps its home |
| Models.NewNotification | api/models.py:64-68 | a new notification is not accepted and carries the given assignment, alert and token |
| Models.InsertUnique | api/models.py:24 | an insert is refused exactly when a stored row has the same key; otherwise it appends, and uniqueness is kept |
| Models.AtMostOneWithKey | api/models.py:36-37 | under a unique key, a query that fixes the key matches at most one row |
| Collections.Filter | chain_of_responsibility/handlers/Caregivers/generic_caregiver_handler/caregiver_one_handler.py:24 | a query set keeps at most the stored rows, and only rows meeting the condition; that every stored row meeting it is kept is `FilterMembership` and `FilterSpec` |
| Collections.FilterMembership | chain_of_responsibility/handlers/Caregivers/generic_caregiver_handler/caregiver_one_handler.py:24 | an element is in the query set exactly when it is stored and meets the condition |
| Lookup.TierAssignments | chain_of_responsibility/handlers/Caregivers/generic_caregiver_handler/caregiver_one_handler.py:24 | an assignment is returned iff it is stored, belongs to the alert home's resident and has the tier's level; with unique (elderly, caregiver) pairs none is returned twice |
| Lookup.UniqueRowsFilterDistinct | api/models.py:36-37 | with unique (elderly, caregiver) pairs the rows, and any selection of them, hold no row twice |
| Lookup.TierAssignmentsEmpty | chain_of_responsibility/handlers/Caregivers/generic_caregiver_handler/caregiver_one_handler.py:24 | the result is empty (not an error) exactly when no stored row matches |
| Lookup.NoResidentNoCaregivers | chain_of_responsibility/handlers/Caregivers/generic_caregiver_handler/caregiver_one_handler.py:24 | a home without a resident yields no assignment at any tier |
| Lookup.TiersAreDisjoint | chain_of_responsibility/handlers/Caregivers/generic_caregiver_handler/caregiver_two_handler.py:33 | two different tiers never return the same assignment for one alert |
| Lookup.OneTierPerCaregiver | api/models.py:36-37 | with unique pairs, one caregiver is returned at one tier at most, as one row |
| Lookup.PrimaryAssignments | chain_of_responsibility/handlers/Caregivers/caregiver_zero_handler.py:29-30 | exactly the stored level-0 rows whose elderly and caregiver are both the alert home's resident |
| Lookup.PrimaryCaregiver | chain_of_responsibility/handlers/Caregivers/caregiver_zero_handler.py:13-15 | `Some` gives a stored primary row; `None` exactly when no row is primary |
| Lookup.PrimaryIsUnique | chain_of_responsibility/handlers/Caregivers/caregiver_zero_handler.py:30 | with unique pairs, the tier-zero query matches at most one row, and that row is the optional result |
| Lookup.GetLevel | chain_of_responsibility/handlers/Caregivers/generic_caregiver_handler/caregiver_two_handler.py:24 | `get(level=l)` returns a stored row with level l; it raises DoesNotExist iff none has l, and MultipleObjectsReturned iff more than one has l |
| Lookup.GetLevelUnique | api/models.py:24 | with unique levels, `get` never finds two rows, and succeeds iff a row has the level |
| Handlers.Handler.constructor | chain_of_responsibility/handlers/base_handler.py:14-25 | no successor; the head is the given head, or the handler itself when none is given; nothing generated, no timer |
| Handlers.Handler.GetNext | chain_of_responsibility/handlers/base_handler.py:40-47 | returns the stored successor (null for the tail) |
| Handlers.Handler.SetNext | chain_of_responsibility/handlers/base_handler.py:27-47 | stores the handler as next and returns that same handler; `GetNext` then yields it; only the link changes |
| Handlers.Handler.GetCaregivers | chain_of_responsibility/handlers/Caregivers/generic_caregiver_handler/caregiver_one_handler.py:17-24 | tiers 1-3 return exactly the stored assignments of their level for the alert's resident (also caregiver_two_handler.py:26-33 and caregiver_three_handler.py:11-12) |
| Handlers.Handler.GetCaregiver | chain_of_responsibility/handlers/Caregivers/caregiver_zero_handler.py:29-30 | tier zero finds a stored level-0 primary row, or reports none exactly when there is none |
| Handlers.Handler.Handle | chain_of_responsibility/handlers/Caregivers/caregiver_zero_handler.py:11-27 | the handlers reached are `Visited(nodes)`; for a token no handler of the chain holds yet, each reached tier-zero handler with a primary gains exactly one new notification (its set grows by one) and a 30 s timer; every other handler is unchanged; links and heads never change |
| Handlers.Handler.Forward | chain_of_responsibility/handlers/base_handler.py:49-57 | with a next handler, the same request is handled from there (the rest of the chain), where a reached tier zero with a primary gains one new notification; with none, nothing runs and nothing changes |
| Handlers.Handler.TimerCallback | chain_of_responsibility/handlers/Caregivers/caregiver_zero_handler.py:32-34 | the first expiry arms a reminder of 30 − 20 seconds for the same request, positive and shorter than the first |
| Handlers.Handler.SecondTimerCallback | chain_of_responsibility/handlers/Caregivers/caregiver_zero_handler.py:37-38 | the reminder's expiry passes the request to the rest of the chain, whose reached tier-zero handlers with a primary each gain one new notification; tier zero's own state stays as it was |
| Handlers.Handler.Fire | chain_of_responsibility/handlers/Caregivers/caregiver_zero_handler.py:23-24 | a first expiry reaches no handler and arms the reminder; a second reaches the rest of the chain, where each reached tier zero with a primary gains one new notification, and leaves the slot idle; the firing handler's generated set is unchanged |
| Handlers.ChainDistinct | chain_of_responsibility/handlers/base_handler.py:56-57 | a chain never holds one handler twice, so forwarding terminates |
| Handlers.NoRepeat | chain_of_responsibility/handlers/base_handler.py:56-57 | two positions of a chain hold different handlers |
| Handlers.VisitedPrefix | chain_of_responsibility/handlers/base_handler.py:56-57 | the handlers reached are a non-empty prefix of the chain, in link order |
| Handlers.VisitedAll | chain_of_responsibility/handlers/Caregivers/generic_caregiver_handler/generic_caregiver.py:5-8 | on a chain of pass-through handlers, every handler is reached, in link order, down to the tail |
| Handlers.VisitedUpToStop | chain_of_responsibility/handlers/Caregivers/caregiver_zero_handler.py:15-27 | travel ends at the first handler that keeps the request |
| Handlers.NewCaregiverZeroHandler | chain_of_responsibility/handlers/Caregivers/caregiver_zero_handler.py:7-9 | a fresh tier-zero handler with wait time 30, no successor, the default head |
| Handlers.NewCaregiverOneHandler | chain_of_responsibility/handlers/Caregivers/generic_caregiver_handler/caregiver_one_handler.py:7-15 | a fresh tier-one handler whose wait time is the class-wide setting |
| Handlers.NewCaregiverTwoHandler | chain_of_responsibility/handlers/Caregivers/generic_caregiver_handler/caregiver_two_handler.py:14-24 | fails with `get`'s error when the level-2 row cannot be fetched; otherwise a fresh tier-two handler whose wait time is that row's, with the given head |
| Handlers.NewCaregiverThreeHandler | chain_of_responsibility/handlers/Caregivers/generic_caregiver_handler/caregiver_three_handler.py:8-9 | a fresh tier-three handler with no wait time; without a head argument it is its own head |
| ChainManagement.BuildTiers | chain_of_responsibility/chain_manager.py:55-59 | links tier 0 → 1 → 2 → 3 with tier 3 last; tiers 1-3 are fresh, with the given head; fails, linking nothing, when the level-2 row cannot be fetched |
| ChainManagement.ChainManager.constructor | chain_of_responsibility/chain_manager.py:41-45 | a new manager has no chains |
| ChainManagement.ChainManager.InitializeChainOfResponsibility | chain_of_responsibility/chain_manager.py:47-61 | builds a fresh 0 → 1 → 2 → 3 chain whose every handler has the tier-zero node as head; appends exactly that head to the registry, earlier entries unchanged and in order; on failure the registry is unchanged |
| ChainManagement.ChainManager.GetChainOfResponsibility | chain_of_responsibility/chain_manager.py:63-70 | always builds and registers a new chain: the registry grows by one |
| ChainManagement.ChainManager.GetChainsOfResponsibility | chain_of_responsibility/chain_manager.py:72-79 | returns the registered heads and changes nothing |
| ChainManagement.ChainManager.RemoveChain | chain_of_responsibility/chain_manager.py:81-89 | removes the first occurrence of a registered head and keeps the others in order; a no-op otherwise; the registry never holds duplicates |
| ChainManagement.SingletonMeta.Call | chain_of_responsibility/chain_manager.py:20-30 | the first call creates an empty manager; every later call returns that same manager untouched |
| ChainManagement.CallTwice | chain_of_responsibility/chain_manager.py:27-30 | two constructions yield one and the same manager |
| ChainManagement.RemoveHandlerChain | chain_of_responsibility/handlers/base_handler.py:59-65 | `remove_chain` removes the handler's head, not the handler itself, from the (possibly new) manager |
| Initialization.ApplicationInitializer.constructor | chain_of_responsibility/initializer.py:41-45 | the stored head starts out empty, and the initializer is `Valid` |
| Initialization.ApplicationInitializer.InitializeChainOfResponsibility | chain_of_responsibility/initializer.py:48-57 | stores a fresh tier-zero head, replacing any earlier one; on success it heads a fresh 0 → 1 → 2 → 3 chain whose handlers are each their own head, with wait times 30, the tier-one setting, the level-2 row's, and none; when the level-2 fetch raises, the stored head has no successor and is the whole stored chain; either way `Valid` holds: the ghost chain starts at the stored head |
| Initialization.ApplicationInitializer.GetChainOfResponsibility | chain_of_responsibility/initializer.py:59-66 | returns the stored head and changes nothing |
| Initialization.ApplicationInitializerMeta.Call | chain_of_responsibility/initializer.py:20-46 | the first successful call builds a `Valid` initializer holding a standalone chain; later calls return that same initializer untouched; a construction that raises stores nothing |
| Seeding.GetOrCreateFacts | api/apps.py:16 | after one `get_or_create` the level is present; stored rows are kept in place; an added row has wait time 600; levels stay unique |
| Seeding.GetOrCreateIsAcceptedInsert | api/apps.py:16 | the create path is taken exactly when the unique-level insert would be accepted, and it gives the table that insert gives: `get_or_create` never raises an integrity error |
| Seeding.SeededHasAllLevels | api/apps.py:16-19 | after seeding, levels 0, 1, 2 and 3 all have a row |
| Seeding.GetOrCreateExtends | api/apps.py:16 | one `get_or_create` of a level in 0..3 keeps the stored rows in place and adds at most rows with wait time 600 and a level in 0..3 |
| Seeding.ExtendsTrans | api/apps.py:16-19 | two such extensions in a row are one such extension |
| Seeding.SeededKeepsRows | api/apps.py:16-19 | rows that existed stay unchanged and in place, including their wait time; added rows have wait time 600 and a level in 0..3 |
| Seeding.SeededUnique | api/apps.py:16-19 | levels stay unique after seeding |
| Seeding.SeededIdempotent | api/apps.py:16-19 | seeding twice gives the same table as seeding once |
| Seeding.OtherSenderUnchanged | api/apps.py:14 | for any sender other than `api` the table is unchanged |
| Seeding.LevelTable.GetOrCreate | api/apps.py:16 | returns the stored row with the level when there is one (created = false); otherwise appends and returns a new row with wait time 600 |
| Seeding.LevelTable.PopulateCaregiverLevels | api/apps.py:11-19 | the table becomes `Seeded` of the old table for sender `api`, and stays the same otherwise; levels stay unique |
| NotificationSender.GenerateLink | notifications_management/notification_sender/notification_sender.py:9-14 | the link is the prefix domain + url + "?token=" followed by exactly the token |
| NotificationSender.TokenRoundTrip | notifications_management/notification_sender/notification_sender.py:14 | stripping the prefix from a link recovers its token |
| NotificationSender.LinkDeterminedByToken | notifications_management/notification_sender/notification_sender.py:11-14 | for fixed settings, two links are equal iff their tokens are |
| NotificationSender.DeliverNotification | notifications_management/notification_sender/notification_sender.py:16-20 | exactly one message is sent, made of the content, subject and recipient of the same notification; earlier messages stay |
| NotificationLevelThree.GenerateSubject | notifications_management/notification_level/notification_level_three.py:32-36 | "Assistance Requested for first last - Caregiver Level " followed by the level's decimal text |
| NotificationLevelThree.SubjectStatesLevel | notifications_management/notification_level/notification_level_three.py:35 | the level can be read back from the subject |
| NotificationLevelThree.GenerateContent | notifications_management/notification_level/notification_level_three.py:7-30 | the body opens with "Dear first last,\n\n", the request naming the resident, and "with a caregiver level of n.\n\n"; it closes with "Confirmation link: ", the notification's link, a blank line and "Best regards,\nIFT785 Project Team" |
| NotificationLevelThree.ContentGreetsCaregiver | notifications_management/notification_level/notification_level_three.py:14 | the body starts with "Dear " and the caregiver's first and last names |
| NotificationLevelThree.ContentStatesLevel | notifications_management/notification_level/notification_level_three.py:16 | the body contains "with a caregiver level of n.\n\n" for the assignment's level |
| NotificationLevelThree.ContentCarriesToken | notifications_management/notification_level/notification_level_three.py:26-28 | the body ends with "Confirmation link: ", a link and the closing lines, and the notification's token reads back from that link |
| NotificationLevelThree.ContentSignedByTeam | notifications_management/notification_level/notification_level_three.py:27-28 | the body ends with "Best regards,\nIFT785 Project Team" |
| NotificationLevelThree.EmailRecipient | notifications_management/notification_sender/email_notification_sender.py:19-32 | the recipient is the assigned caregiver's e-mail address, not the resident's |
| NotificationLevelThree.DeliverLevelThree | notifications_management/notification_sender/notification_sender.py:16-20 | delivering a level-three e-mail sends one message, to the caregiver's address, with the level-three subject and a body carrying the token |
| Escalation.TierChainReach | chain_of_responsibility/handlers/Caregivers/caregiver_zero_handler.py:11-27 | on a 0 → 1 → 2 → 3 chain, `handle` reaches tier zero alone when the resident has a primary assignment, and all four tiers in order otherwise |
| Escalation.EscalationReachesUpperTiers | chain_of_responsibility/handlers/Caregivers/generic_caregiver_handler/generic_caregiver.py:5-8 | passing on from tier zero reaches tiers one, two and three, in order |
| Escalation.RaiseAlert | chain_of_responsibility/handlers/Caregivers/caregiver_zero_handler.py:11-35 | with a primary: `handle` reaches tier zero only and records one notification; the first expiry reaches nobody and arms the reminder at 30 - 20 seconds; tiers 1-3 record nothing and arm no timer; every handler keeps its link and its head |
| Escalation.AlertLifecycle | chain_of_responsibility/handlers/Caregivers/caregiver_zero_handler.py:11-38 | with a primary: `handle` reaches tier zero only; the first expiry reaches nobody; the second reaches tiers 1-3; one notification is recorded in all and no timer is left pending; every handler keeps its link and its head |
| Escalation.AlertWithoutPrimary | chain_of_responsibility/handlers/Caregivers/caregiver_zero_handler.py:25-27 | without a primary, one `handle` reaches all four tiers at once; no notification is recorded and no timer is armed; every handler keeps its link and its head |

## Left out

- Threads and timing: the `threading.Timer` objects are a single timer slot, and their expiries are explicit `Fire` calls. Real delays, concurrent expiries, and races between an expiry and a later `handle` are not modelled.
- Handlers.Handler.Handle: a second `handle` on a tier-zero handler whose timer is pending overwrites the slot. In the source, the earlier thread would still run.
- Acceptance of a notification, timer cancellation and token generation do not exist in the modelled code. The token is a parameter of `Handle`, `Forward`, `SecondTimerCallback` and `Fire`. They require `FreshToken`: no notification held by the handlers that may record one carries the token. This stands for what `generate_token` promises (chain_of_responsibility/tests.py:38-45): a token no stored notification has. The table constraint `UniqueTokens` is stated, but no modelled operation stores a notification.
- Handlers.Handler.Handle: the source calls `get_caregivers`, but tier zero defines `get_caregiver`. It also uses a `build_notification` and a `_generated_notifications` set that the base class does not define, and it compares the `filter` result (a query set, which is never `None`) against `None`. The model follows the evident design: the lookup is the optional `PrimaryCaregiver`, and the new notification is added to the `generated` set.
- The tier constructors disagree in arity. `chain_manager.py` passes a head to tier three, which takes none, and `initializer.py` passes none to tier two, which requires one. In the model every constructor takes an optional head, defaulting as in `BaseHandler.__init__`.
- `NotificationLevelThree` calls a `generate_link` its own class does not define. The model uses the sender's `GenerateLink`.
- The abstract classes `Handler`, `NotificationSender` and `NotificationLevel` are not separate entities. `deliver_notification` takes the three builders as function arguments.
- The mail transport (`send_mail`) and its configuration are not modelled. `send` appends the message to an outbox.
- The placeholder level-one and level-two templates are not modelled, and neither are the HTTP views, URL routing, serializers or admin configuration.
- The historical handler stubs that are not wired into any chain are not part of this model.
- Django mechanics are reduced to values. Query sets are sequences, and `get` is `GetLevel` with its two exceptions. `max_length` limits, cascading deletes and auto-generated keys are not modelled; ids are plain numbers.
- `reverse('api:confirm_notification')` and `settings` are fields of `Config.Settings`.
- An alert's start time and reading are kept as the text they format to; datetime and decimal formatting are not modelled.
- The list returned by `get_chains_of_responsibility` is the registry itself in the source, so a caller could mutate it. The model returns a value.
- A `Person`'s uniqueness by (first name, last name) is stated (`UniquePersonNames`) but no operation of the core inserts people.
- NotificationLevelThree.GenerateContent: the contract pins how the body opens and how it closes. The alert details in between are fixed by the definition and are not restated. The link's position is given through the closing text rather than as an index.
- The builders and `deliver_notification` are functions, so they cannot modify the notification. No separate statement of that is made.
