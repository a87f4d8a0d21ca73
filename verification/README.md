# Verified model of Modulr.Core

Modulr.Core is a registry that changes its state only through signed messages. This project models its most intricate
parts in Dafny and proves what they keep over whole runs.

- **The message machine** (`core`, `server`, `step_laws`, `runs`, `honest_requests`, `replay`, `replay_exact`): `POST /message` validates,
  prunes and extends the dedup table, dispatches, stores the response, and commits or rolls back one connection with a
  committed and a working copy. `Core.Step` is one request or command. A run is a recorded trace of them from a freshly
  migrated database: every event with its response and the committed tables after it. Every event sequence has exactly one
  run, and theorems about time ask for a non-decreasing clock. At-most-once execution is a timing theorem over four
  settings, proved in both directions: a signed text runs at most once in every run if and only if the expiry window is zero
  or `replay_window >= max_expiry_window + future_skew`. The shipped defaults do not satisfy this.
- **The registry** (`names`, `dials`, `registry`, `registry_laws`, `repositories`, `handlers`, `effects`, `name_runs`): names, modules,
  prioritised dials, and the redundant legacy route that must always equal the first dial.
- **The genesis wizard** (`challenge_text`, `genesis`, `wizard_runs`): issue, verify, complete, reset, with the provenance of
  every completion and what stays frozen until a reset.
- **Canonical JSON and signing** (`doubles`, `numbers`, `json`, `json_roundtrip`, `canonical`, `printers`, `signing`): the
  browser's and the server's printers, a parser for RFC 8259 texts, and the text the server recovers from a signed body.
  Numbers are integers and IEEE 754 doubles: reading takes the nearest double, printing the shortest decimal that reads back.
  Keys sort by Unicode code point, which is not the order of section 3.2.3 of RFC 8785.
- **Module state details** (`module_state`, `compose`, `compose_laws`): the server's normaliser and the browser's producer.
- **Keymaster** (`keymaster_vault`, `keymaster`, `keymaster_runs`): unlocked sessions and the sealed vault on disk.
- **User profiles** (`branding`): column-preserving writes under key rows and handle rows.

A function such as `Registry.SubmitRoute` says what an operation leaves in the tables and what it answers, also when it fails
half-way. The method that performs the operation step by step, such as `Handlers.HandleSubmitRoute`, is proved to compute it,
and the laws are lemmas about the function and about runs.

## Assumptions

- The migrations are not part of this model. Table keys follow the queries: the dial key from the `ON CONFLICT` clause
  (`src/modulr_core/repositories/dial_route_entry.py:44`), unique module and organisation names from the `IntegrityError`
  handling (`src/modulr_core/operations/handlers.py:1140`, `1298`). A new dial id is the largest id present plus one.
- SHA-256, Ed25519 (section 5.1 of RFC 8032), image decoding, ISO 8601 parsing and Python's `repr` of a text are arbitrary
  functions in `Database.Platform`; results hold for all of them. `ReplayExact.CanSend` is an honest sender: its one request carries a
  signature that verifies. `HonestRequests.SignsOnly`: a signature that verifies over the signed text and no other.
- Both runtimes read a number text as the nearest double, ties to even, and print the shortest decimal that reads back as the
  double, the nearest one of that length. `ComposeLaws.ReadsDoubles`: a finite `Number(text)` is a double.
- Base64 (section 4 of RFC 4648) round-trips 32-byte seeds. A sealed vault opens under its own passphrase and no other.
- Challenge ids, session ids, profile ids and seeds are parameters. A colliding challenge id is refused by its primary key, as
  in the source; session ids may repeat and the theorems still hold.
- Requests run one at a time, as the connection lock makes them.
- Instants and clock readings are reals. One request reads the clock once for validation and once for its handler.

## Findings

Places where the code does not do what its documentation or its other half promises, each with the exact condition under which it
does.

- The two canonical printers disagree on integral numbers from 2^53 on and below 10^16
  (`frontend/lib/modulrWire/canonicalJson.ts:75-77`): the browser writes `9.007199254740992e+15`, the server re-prints what it read
  as `9007199254740992.0`. The texts are the same, and an honest request is accepted, if and only if there is no such number
  (`Printers.PrintersAgreeIff`, `Signing.ServerRecoversSignedTextIff`, `HonestRequests.BrowserRequestIsAcceptedIff`,
  `Printers.TwoTo53Differs`).
- Under the shipped defaults (`src/modulr_core/config/schema.py:15-17`) one signed text runs twice; a signed text runs at most once
  if and only if the replay window covers expiry window plus skew, or nothing is accepted at all (`ReplayExact.AtMostOnceExactly`,
  `ReplayExact.ShippedDefaultsRunTwice`).
- The browser's composer and the server's normaliser do not trim the same characters
  (`frontend/lib/reportModuleStateDetail.ts:177-193`): a composed detail is accepted if and only if the server, too, sees every text
  as non-blank and the sizes fit (`ComposeLaws.ComposedIsAcceptedIff`, `ComposeLaws.NextLineTitleIsRefused`).
- A pasted copy with mixed line ends does not determine its text when that has an empty line
  (`keymaster/src/modulr_keymaster/profiles.py:162`). A text is recovered from all its copies if and only if it has no carriage
  return, no empty line and no trailing whitespace (`ChallengeText.RecoveredIff`, `ChallengeText.EmptyLineIsAmbiguous`); every issued
  challenge is such a text.

## Model

| member | source | states |
|---|---|---|
| Server.App.PostMessage | src/modulr_core/http/app.py:196-297 | the committed tables and the response equal `Core.Post` of the tables before; nothing stays pending, on success, replay or any failure |
| Server.ValidateInboundRequest | src/modulr_core/messages/pipeline.py:61-187 | runs every check in order and leaves in the working copy exactly the pruned and extended dedup table |
| Server.ApplyDeduplication | src/modulr_core/messages/pipeline.py:291-321 | prunes, then inserts a new id, reports a conflicting fingerprint, or recognises a replay |
| Server.DispatchOperation | src/modulr_core/operations/dispatch.py:38-85 | each operation's handler computes the state function of that operation, also when it fails half-way |
| Server.UpdateResultSummary | src/modulr_core/repositories/message_dedup.py:38-44 | overwrites one summary; true exactly when the id has a row |
| Server.App.Finish | src/modulr_core/http/genesis.py:114-133 | commit exactly on success, roll back on failure |
| Server.App.PostGenesisChallenge | src/modulr_core/http/genesis.py:67-146 | the committed tables and response are one `Core.Step` of the issue event; refused when wizard operations are not allowed |
| Server.App.PostGenesisVerify | src/modulr_core/http/genesis.py:241-318 | the same for a verification |
| Server.App.PostGenesisComplete | src/modulr_core/http/genesis.py:150-237 | the same for a completion; a failure leaves no name binding behind |
| Server.App.RunReset | src/modulr_core/genesis/cli.py:349-400 | the same for the guarded reset command |
| Database.Connection.Rollback | src/modulr_core/http/app.py:209-219 | the working copy returns to the committed one |
| StepLaws.RefusedChangesNothing | src/modulr_core/http/app.py:200-285 | every refused request or command leaves the committed tables exactly as they were |
| StepLaws.ReservedModuleRollsBack | src/modulr_core/operations/handlers.py:1459-1550 | `register_org` on the reserved module has bound the name in its working copy when it fails; the committed tables do not have it |
| StepLaws.PostOutcome | src/modulr_core/http/app.py:196-297 | an execution dispatches on the pruned table with a new row and stores its response; a replay only prunes; a refusal changes nothing |
| StepLaws.StoredResponseParses | src/modulr_core/http/replay_cache.py:9-22 | the stored summary of every success reads back as the very response that was sent |
| StepLaws.ReplayIsAnswered | src/modulr_core/http/app.py:237-248 | a recognised replay inside the window is always answered from its row, so the unavailable-response branch is never taken |
| StepLaws.FreshRowSurvives | src/modulr_core/messages/pipeline.py:299-315 | no event changes a dedup row that is still inside the replay window |
| StepLaws.DispatchKeeps | src/modulr_core/operations/dispatch.py:38-85 | no operation breaks the registry invariants, rebinds a name or module key, or touches dedup rows, challenges or the wizard's outcome |
| StepLaws.DispatchWritesUsers | src/modulr_core/operations/handlers_branding.py:658-785 | a successful operation applies exactly the user write it parsed; all others leave profiles alone |
| StepLaws.StepKeepsState | src/modulr_core/http/app.py:196-297 | every request and command keeps the reachable-state invariant (registry, dedup, challenges, wizard) |
| StepLaws.StepIsWriteOnce | src/modulr_core/operations/handlers.py:1261-1313 | every step but a successful reset keeps all bound identities and module identities |
| Replay.ExecutionsAreSpaced | src/modulr_core/messages/pipeline.py:299-321 | in every run with a non-decreasing clock, two committed executions of one message id are more than `replay_window` whole seconds apart |
| Replay.ReplayReturnsFirstResponse | src/modulr_core/http/app.py:237-248 | inside the window the same signed text, still valid, gets the first response word for word, executes nothing and changes nothing but expired dedup rows |
| Replay.RowStays | src/modulr_core/messages/pipeline.py:299-315 | until the clock leaves the window, an executed message's row is exactly as stored, whatever else happens |
| Replay.StoredAt | src/modulr_core/http/app.py:286-295 | an execution leaves a row with its fingerprint, its second and its response |
| Replay.ExecutionWasUnseen | src/modulr_core/messages/pipeline.py:299-311 | in every run a message executes only if its id has no row inside the window |
| Replay.SameTextSameRequest | src/modulr_core/messages/pipeline.py:130-151 | one signed text fixes the message id and both instants, so any two acceptances of it are at most expiry window plus skew apart |
| Replay.PyIntSpan | src/modulr_core/messages/pipeline.py:299-300 | truncating the clock to whole seconds never stretches a span past a whole bound, on either side of zero |
| Replay.LongWindowMeansAtMostOnce | src/modulr_core/config/schema.py:15-17 | if `replay_window >= max_expiry_window + future_skew`, no signed text executes twice in any run |
| Replay.ExecutedWasSigned | src/modulr_core/messages/pipeline.py:153-170 | every execution carries a valid signature of its sender over its signed text, and the sender is an effective bootstrap key in that state |
| ReplayExact.ShortWindowRunsTwice | src/modulr_core/messages/pipeline.py:130-151 | otherwise, after any run that leaves an honest sender able to start and at any clock reading, its one signed request, sent as early and as late as its dates allow, executes twice |
| ReplayExact.AtMostOnceExactly | src/modulr_core/config/schema.py:15-17 | wherever some sender can start, a signed text executes at most once in every run if and only if the expiry window is zero or the replay window covers expiry window plus skew |
| ReplayExact.ShippedDefaultsRunTwice | src/modulr_core/config/schema.py:15-17 | the shipped defaults are on the wrong side: every run after which a sender can start goes on to execute one signed text twice, 605100 seconds apart |
| HonestRequests.RequestIsPresented | src/modulr_core/messages/pipeline.py:61-170 | every request with good fields and dates, correctly hashed and signed with an effective bootstrap key, passes every check, whatever its operation, payload and printer |
| HonestRequests.BrowserRequestIsAcceptedIff | frontend/lib/modulrWire/signCoreMessage.ts:26-54 | such a request built by the browser, its signature valid for the signed text only, passes every check if and only if dates and payload hold no integral number from 2^53 on and below 10^16 |
| ReplayExact.RequestIsPresented | src/modulr_core/messages/pipeline.py:61-170 | a correctly signed request to read the protocol version, under any message id and dated from any start, passes every check from its start to its expiry |
| Runs.PlayIsRun | src/modulr_core/http/app.py:196-297 | every sequence of requests and commands has a run, entry by entry |
| Runs.RunsAreUnique | src/modulr_core/http/app.py:196-297 | two runs of the same events have the same responses and the same tables |
| Runs.ReachableStateOk | src/modulr_core/http/app.py:196-297 | the invariant holds in every state of every run from a fresh database |
| Runs.LegacyRouteInEveryState | src/modulr_core/operations/handlers.py:467-508 | in every reachable state the legacy route is the first dial, core's row exists exactly when core has dials, and `get_module_route` and `lookup_module` agree |
| Runs.RegistryIsWriteOnce | src/modulr_core/operations/handlers.py:1261-1313 | over any stretch of a run without a reset, a name's identity and creation time and a module's row (its route apart) never change |
| Runs.ModulesAreAlwaysBound | src/modulr_core/operations/handlers.py:1114-1157 | before any reset, every module is the lower-case form of a bound name, and `modulr.core` is never in the table |
| Runs.UsersAreCommittedWrites | src/modulr_core/repositories/entity_profile_branding.py:57-108 | the user table after any run is its committed writes applied in order |
| Runs.RunReadsReturnLastWrites | src/modulr_core/operations/handlers_branding.py:340-428 | after any run, reading by key returns the last committed image and the last committed description of that key |
| Runs.RefusalsInRuns | src/modulr_core/genesis/reset.py:76-87 | in every run refusals change nothing, and a reset never fails for lack of a label |
| WizardRuns.CompletionIsBacked | src/modulr_core/genesis/completion.py:204-236 | every successful completion has a challenge issued to the same operator key, whose returned body that key signed in exactly one accepted verification before 300 s, no reset since; it follows that by at most 900 s and the issue by at most 1199 s |
| WizardRuns.EveryChallengeIsBacked | src/modulr_core/genesis/challenge.py:145-219 | every stored challenge was issued by an earlier event with no reset since, and is consumed if and only if one accepted verification did it |
| WizardRuns.CompletionsNeedReset | src/modulr_core/genesis/completion.py:204-206 | between two successful completions there is a successful reset |
| WizardRuns.CompletionHolds | src/modulr_core/genesis/completion.py:243-270 | from completion to reset: complete, label bound to the chosen organisation key, operator key an effective bootstrap key, challenges frozen, every wizard request refused |
| WizardRuns.CompleteStaysFrozen | src/modulr_core/bootstrap_effective.py:29-40 | signed messages and refused wizard requests never change label, keys, display name or challenges of a complete wizard |
| StepLaws.CompletedWizardIsFrozen | src/modulr_core/genesis/challenge.py:158-161 | one step never changes the outcome of a complete wizard unless it is a successful reset |
| StepLaws.CompleteOutcome | src/modulr_core/genesis/completion.py:204-270 | a completion refuses before writing anything, or binds the label to the organisation key and sets label, operator key and flag together |
| StepLaws.ResetNeverLacksLabel | src/modulr_core/genesis/reset.py:67-87 | under the invariant a reset of a complete wizard always succeeds, removes exactly the root binding and clears every wizard field and challenge |
| StepLaws.RootLabelIsNormal | src/modulr_core/genesis/completion.py:46-68 | an accepted label is non-empty and reads back from the row unchanged |
| Genesis.IssueChallenge | src/modulr_core/genesis/challenge.py:145-186 | the working tables and result are those of `Genesis.Issue` |
| Genesis.VerifyChallenge | src/modulr_core/genesis/challenge.py:188-219 | the working tables and result are those of `Genesis.VerifyAndConsume` |
| Genesis.CompleteGenesis | src/modulr_core/genesis/completion.py:157-270 | the step-by-step writes compute `Genesis.Complete` |
| Genesis.ResetGenesisState | src/modulr_core/genesis/reset.py:33-95 | the delete and clear steps compute `Genesis.Reset` |
| Genesis.MarkConsumed | src/modulr_core/repositories/genesis_challenge.py:70-90 | true exactly when a pending row was consumed; only its `consumed_at` changes |
| Genesis.GetOrCreateInstanceId | src/modulr_core/repositories/core_genesis.py:149-169 | returns the stored id, or stores the fresh one once |
| Effects.IssuedChallengeIsStored | src/modulr_core/genesis/challenge.py:164-186 | a successful issue stores a pending row whose body decodes to its own id, times and key and equals the body returned |
| Effects.PastedChallengeVerifies | src/modulr_core/genesis/challenge.py:204-219 | signing any pasted copy of an issued challenge with the operator key verifies if and only if 300 s are not over, and consumes exactly that row |
| ChallengeText.DecodeOfBody | src/modulr_core/genesis/challenge.py:67-97 | a decoder inverts the builder on everything it accepts, the nonce with a trailing line end included, so the body determines its fields |
| ChallengeText.PasteRecoversText | keymaster/src/modulr_keymaster/profiles.py:154-163 | any copy of a text without empty lines, each line end in its own style, with trailing blanks, normalises to the text |
| ChallengeText.PastedChallengeIsStoredBody | keymaster/src/modulr_keymaster/profiles.py:154-163 | any pasted copy of a challenge normalises to the stored body |
| ChallengeText.NormalizeIdempotent | keymaster/src/modulr_keymaster/profiles.py:154-163 | normalising twice is normalising once |
| ChallengeText.TwoReplacesAreOnePass | keymaster/src/modulr_keymaster/profiles.py:162-162 | the two replacements together are one pass over line ends |
| ChallengeText.RecoveredIff | keymaster/src/modulr_keymaster/profiles.py:154-163 | a text is recovered from every copy, whatever its line ends and trailing whitespace, if and only if it has no carriage return, no empty line and no trailing whitespace |
| ChallengeText.EmptyLineIsAmbiguous | keymaster/src/modulr_keymaster/profiles.py:162 | every text with an empty line has a copy in common with the text that lacks one of its two line ends |
| Handlers.HandleRegisterName | src/modulr_core/operations/handlers.py:1351-1403 | the handler computes `Registry.RegisterName` |
| Handlers.HandleRegisterOrg | src/modulr_core/operations/handlers.py:1406-1568 | the handler computes `Registry.RegisterOrg`, including the binding left behind by a later failure |
| Handlers.HandleSubmitRoute | src/modulr_core/operations/handlers.py:855-979 | the handler computes `Registry.SubmitRoute` |
| Handlers.HandleRemoveRoute | src/modulr_core/operations/handlers.py:982-1088 | the handler computes `Registry.RemoveRoute` |
| Handlers.SyncLegacyRouteToPrimaryDial | src/modulr_core/operations/handlers.py:467-508 | the update, upsert or delete computes `Registry.SyncLegacy` |
| Handlers.InsertNameIdempotent | src/modulr_core/operations/handlers.py:1261-1313 | insert, or accept an identical row with its old creation time, or refuse |
| Handlers.UpsertModuleRow | src/modulr_core/operations/handlers.py:1114-1157 | insert, or accept an identical module row, or refuse |
| RegistryLaws.RegisterNameKeeps | src/modulr_core/operations/handlers.py:1351-1403 | only the name table changes, no bound identity does, and a refusal changes nothing |
| RegistryLaws.RegisterOrgKeeps | src/modulr_core/operations/handlers.py:1406-1568 | only names and modules change, neither is rebound, core never enters the module table; also on the path that fails after the first write |
| RegistryLaws.OmittedMetadataIsKept | src/modulr_core/operations/handlers.py:1471-1485 | re-registering with metadata omitted keeps the stored metadata |
| RegistryLaws.SubmitRouteKeeps | src/modulr_core/operations/handlers.py:855-979 | only one scope's dials and its legacy route change, and they agree afterwards |
| RegistryLaws.RemoveRouteKeeps | src/modulr_core/operations/handlers.py:982-1088 | the same for a removal |
| RegistryLaws.SyncRestores | src/modulr_core/operations/handlers.py:467-508 | after any change to one scope's dials, syncing restores legacy agreement for every scope |
| RegistryLaws.RouteReadsAgree | src/modulr_core/operations/handlers.py:786-852 | both reads succeed for the same modules and report the same route; with dials it is the first dial's and the stored legacy text says the same |
| RegistryLaws.BoundNameResolves | src/modulr_core/operations/handlers.py:1316-1348 | a bound name resolves to its identity and creation time in every later state |
| RegistryLaws.RegisteredOrgResolves | src/modulr_core/operations/handlers.py:1406-1568 | the name text `register_org` accepted is accepted by `resolve_name` and yields the registered identity |
| RegistryLaws.ReverseResolveListsAll | src/modulr_core/operations/handlers.py:1571-1600 | reverse resolution lists exactly the names bound to the identity, each once, in code point order, and fails exactly when there are none |
| RegistryLaws.LookupIgnoresCase | src/modulr_core/operations/handlers.py:1160-1195 | a published module is found under every letter case of its name, with its published key |
| Effects.RegisteredNameResolves | src/modulr_core/operations/handlers.py:1351-1403 | a name registered with `register_name` resolves to its identity, at once and later |
| NameRuns.RegisteredNamesResolve | src/modulr_core/operations/handlers.py:1316-1568 | in every run, once `register_name` or `register_org` has run and while no reset succeeds, every new `resolve_name` request for the same name text runs and answers with the registered identity |
| Effects.SubmittedRouteIsStored | src/modulr_core/operations/handlers.py:855-979 | merge: the submitted route is stored and every other key keeps its row; replace: it is the scope's only dial and other scopes keep theirs |
| Effects.ReplacedRouteIsReported | src/modulr_core/operations/handlers.py:786-852 | after a replacing submit both reads report the submitted route |
| Effects.SubmitThenRemoveRestores | src/modulr_core/operations/handlers.py:982-1088 | merging a new route and removing it restores the whole dial table |
| Effects.RemoveDeletesOneRoute | src/modulr_core/operations/handlers.py:1017-1064 | a removal succeeds exactly when the route is present and deletes that key only |
| Effects.OnlyOwnersChangeDials | src/modulr_core/operations/handlers.py:927-941 | whatever the operation, only a module's own key changes that module's dials |
| Names.ApexIffResolvable | src/modulr_core/validation/names.py:64-138 | a name without `@` is an apex name if and only if the resolve grammar accepts it and it has at most one dot; both return the same text |
| Names.ApexIsResolvable | src/modulr_core/validation/names.py:64-138 | every accepted apex name is accepted unchanged by both grammars, again and again |
| Names.LowerApex | src/modulr_core/operations/handlers.py:511-524 | letter case never matters to the apex grammar |
| Dials.MergeRefinesMapUpdate | src/modulr_core/repositories/dial_route_entry.py:27-59 | merge is one map update: that key keeps its id and creation time or gets an id above all present; every other key keeps its row |
| Dials.ReplaceAllSingleton | src/modulr_core/repositories/dial_route_entry.py:68-89 | replace leaves exactly that dial in the scope and every other scope as it was |
| Dials.DeleteRefinesMapRemoval | src/modulr_core/repositories/dial_route_entry.py:91-105 | delete removes that key only, and deletes a row exactly when the key was present |
| Dials.MergeThenDeleteRestores | src/modulr_core/repositories/dial_route_entry.py:27-105 | merging an absent dial and removing it restores the table |
| Dials.ListByScopeIs | src/modulr_core/repositories/dial_route_entry.py:14-25 | the listing is the scope's rows, exactly, in (priority, id) order |
| Dials.OrderedIsUnique | src/modulr_core/repositories/dial_route_entry.py:20-22 | rows determine their ordered listing |
| Repositories.UpsertMergeDial | src/modulr_core/repositories/dial_route_entry.py:27-59 | the search and update-or-append computes `Dials.UpsertMerge` |
| Repositories.ReplaceAllForScope | src/modulr_core/repositories/dial_route_entry.py:68-89 | the delete and the inserting loop compute `Dials.ReplaceAll` |
| Repositories.DeleteByScopeAndDial | src/modulr_core/repositories/dial_route_entry.py:91-105 | true exactly when a row was deleted |
| Repositories.InsertName | src/modulr_core/repositories/name_bindings.py:13-29 | inserts exactly when the name is free |
| Repositories.UpdateRouteMetadata | src/modulr_core/repositories/name_bindings.py:47-68 | updates route and metadata of that name only, only for that identity |
| Repositories.DeleteName | src/modulr_core/repositories/name_bindings.py:39-45 | removes that name only |
| Repositories.InsertModule | src/modulr_core/repositories/modules.py:13-43 | inserts exactly when no module has the name in any letter case |
| Repositories.UpdateRouteJson | src/modulr_core/repositories/modules.py:60-65 | changes the route text of that module only |
| Doubles.NearestKeepsOrder | frontend/lib/modulrWire/canonicalJson.ts:79-89 | rounding a number to the nearest double never carries it across a double |
| Doubles.NearestOfDouble | frontend/lib/modulrWire/canonicalJson.ts:65-89 | a number that is a double is read as itself |
| Numbers.PythonTextReads | src/modulr_core/validation/canonical.py:23-31 | what the server prints for a double reads back as that double, sign of zero included |
| Numbers.SerializeJsonNumberReads | frontend/lib/modulrWire/canonicalJson.ts:53-89 | what the browser prints for a double reads back as that double |
| Numbers.StringifyNumberReads | frontend/lib/reportModuleStateDetail.ts:382 | so does what `JSON.stringify` prints with a point or an exponent |
| Numbers.FloatTextsAgreeIff | frontend/lib/modulrWire/canonicalJson.ts:65-89 | the browser and the server print the same text for a double if and only if it is not an integral number from 2^53 on and below 10^16 |
| JsonRoundTrip.ParseOfRender | frontend/lib/modulrWire/canonicalJson.ts:15-112 | parsing a printed value returns the value, for every JSON value and each of the four printers |
| JsonRoundTrip.ParseCharsOfQuoteBody | frontend/lib/modulrWire/canonicalJson.ts:15-51 | escaped strings are self-delimiting: whatever follows, the parser recovers the string and the rest |
| JsonRoundTrip.ParseWellFormed | src/modulr_core/validation/canonical.py:23-31 | a parser result has distinct keys and finite doubles at every level |
| Canonical.CompareUnicodeKeys | frontend/lib/modulrWire/canonicalJson.ts:5-13 | the loop computes code point comparison |
| Canonical.CompareIsTotalOrder | frontend/lib/modulrWire/canonicalJson.ts:5-13 | the comparator is a strict total order on keys |
| Canonical.SortedIsUnique | frontend/lib/modulrWire/canonicalJson.ts:100-108 | any two correctly sorted lists of the same members are equal, so the sort used does not matter |
| Printers.SerializeJsonString | frontend/lib/modulrWire/canonicalJson.ts:15-51 | the loop prints the quoted string |
| Printers.SortKeys | frontend/lib/modulrWire/canonicalJson.ts:108 | sorting with the comparator computes the sorted member list |
| Printers.SerializeJsonValue | frontend/lib/modulrWire/canonicalJson.ts:91-112 | the recursive printer, which sorts keys as it goes, prints the compact text of the key-sorted value |
| Printers.PrintersAgreeIff | frontend/lib/modulrWire/canonicalJson.ts:65-112 | the browser's text of a value is the server's if and only if the value holds no integral number from 2^53 on and below 10^16 |
| Printers.TwoTo53Differs | frontend/lib/modulrWire/canonicalJson.ts:75-77 | the two texts of `{"n": 2^53}` differ |
| Printers.ParseOfBrowserJson | frontend/lib/modulrWire/canonicalJson.ts:91-112 | whatever numbers it holds, the browser's text reads as the key-sorted value |
| Canonical.ParseOfCanonical | src/modulr_core/validation/canonical.py:23-31 | reading a canonical text back gives the value with sorted keys |
| Canonical.SameTextIffSameValue | src/modulr_core/validation/canonical.py:23-31 | two values have the same canonical text if and only if they are the same value, so the text is independent of key order |
| Canonical.CanonIdempotent | src/modulr_core/validation/canonical.py:23-31 | canonicalising twice is canonicalising once |
| Canonical.GetOfCanon | src/modulr_core/validation/canonical.py:23-31 | reading a member commutes with canonicalising |
| Signing.BuildSignedMessageBody | frontend/lib/modulrWire/signCoreMessage.ts:26-54 | the server parsing the body recomputes the signed text if and only if dates and payload hold no integral number from 2^53 on and below 10^16, and the hashed payload text if and only if the payload holds none; it reads the signature and hash as sent |
| Signing.ServerReadsEnvelope | src/modulr_core/validation/ed25519.py:14-21 | for every envelope and signature text and whichever printer wrote the body, parse, drop `signature`, re-canonicalise yields the server's canonical text of the unsigned envelope; every other member keeps its canonical text |
| Signing.ServerRecoversSignedTextIff | src/modulr_core/validation/ed25519.py:14-21 | that text is the one the browser signed if and only if the envelope holds no integral number from 2^53 on and below 10^16 |
| Signing.SigningTextDeterminesMembers | src/modulr_core/validation/ed25519.py:14-21 | envelopes with equal signing text agree on every key but the signature |
| ModuleState.NormalizeDetail | src/modulr_core/operations/handlers.py:310-437 | the section-by-section checks and the rebuilt health section compute `ModuleState.Normalize` |
| ModuleState.CheckSlices | src/modulr_core/operations/handlers.py:215-245 | the accumulating loop accepts exactly one to five labelled slices whose percentages sum to 100 |
| ModuleState.CheckCards | src/modulr_core/operations/handlers.py:133-172 | the loop accepts exactly one to ten valid cards |
| ModuleState.CheckPies | src/modulr_core/operations/handlers.py:175-245 | the loop accepts exactly at most four valid pies |
| ModuleState.HealthPoints | src/modulr_core/operations/handlers.py:248-285 | accepts exactly 24 non-negative samples that fit in a double and returns each as its nearest double |
| ModuleState.NormalizeIsIdempotent | src/modulr_core/operations/handlers.py:310-437 | normalising a normalised detail returns the same text and no warnings |
| ModuleState.NormalizedIsValid | src/modulr_core/operations/handlers.py:310-437 | every stored detail, its floats printed anew, has at most 16384 characters and parses to a valid document: 24 non-negative doubles per series, percentages summing to 100 |
| ModuleState.RebuiltSection | src/modulr_core/operations/handlers.py:402-437 | the stored document differs from the sent one in the health section only |
| ModuleState.HandleReportState | src/modulr_core/operations/handlers.py:1696-1779 | the handler computes `ModuleState.ReportState` |
| Compose.ComposeReportModuleStateDetailJson | frontend/lib/reportModuleStateDetail.ts:303-383 | the builder computes `Compose.Detail` |
| Compose.BuildDashboardCardsJson | frontend/lib/reportModuleStateDetail.ts:174-208 | the loop computes `Compose.CardsJson` |
| Compose.BuildDashboardPiesJson | frontend/lib/reportModuleStateDetail.ts:210-271 | the nested loops compute `Compose.PiesJson` |
| Compose.ParseHealthSeries | frontend/lib/reportModuleStateDetail.ts:132-157 | the loop computes `Compose.Series` |
| ComposeLaws.ShownReadsBack | src/modulr_core/operations/handlers.py:248-285 | whether `JSON.stringify` writes a sample as digits or as a float, the server accepts it and stores the double the browser read |
| ComposeLaws.ComposedIsAcceptedIff | frontend/lib/reportModuleStateDetail.ts:303-383 | a detail the browser composes passes the server's normaliser if and only if the server sees every text as non-blank and both the detail and the normalised text, as the server prints it, fit in 16384 characters |
| ComposeLaws.SharedWhitespaceIsAccepted | frontend/lib/reportModuleStateDetail.ts:303-383 | with a shared whitespace class only the sizes matter |
| ComposeLaws.NextLineTitleIsRefused | frontend/lib/reportModuleStateDetail.ts:177-193 | for every accepted form, retitling its first card U+0085 keeps the browser accepting and makes the server refuse |
| Keymaster.App.Serve | keymaster/src/modulr_keymaster/app.py:106-108 | the middleware and the handler of a request compute `Keymaster.Step` on disk and sessions |
| Keymaster.App.SetupPost | keymaster/src/modulr_keymaster/app.py:177-238 | computes `Keymaster.DoSetup`: one vault ever, written before any session is bound |
| Keymaster.App.UnlockPost | keymaster/src/modulr_keymaster/app.py:129-155 | computes `Keymaster.DoUnlock` |
| Keymaster.App.IdentitiesNewPost | keymaster/src/modulr_keymaster/app.py:278-355 | computes `Keymaster.DoNewIdentity`, failed reads and writes included |
| Keymaster.App.IdentityRenamePost | keymaster/src/modulr_keymaster/app.py:470-563 | computes `Keymaster.DoRename`, which renames in the profiles read from disk |
| Keymaster.App.LockPost | keymaster/src/modulr_keymaster/app.py:241-244 | drops the caller's session only |
| Keymaster.App.PruneExpiredSessions | keymaster/src/modulr_keymaster/sessions.py:41-50 | drops exactly the expired sessions and keeps the other records |
| Keymaster.App.ResolveUnlockedVault | keymaster/src/modulr_keymaster/sessions.py:53-68 | a live session is touched and its vault returned; an expired one is dropped |
| Keymaster.App.ReplaceSessionVault | keymaster/src/modulr_keymaster/sessions.py:89-105 | every session gets the new vault, only the caller's is touched, no creation time changes |
| Keymaster.App.NewSessionId | keymaster/src/modulr_keymaster/sessions.py:71-79 | prunes, then adds one fresh record |
| KeymasterRuns.SessionsMatchDisk | keymaster/src/modulr_keymaster/app.py:128-155 | in every run every live session holds exactly the profiles on disk, failed writes included |
| KeymasterRuns.VaultNeverLosesKeys | keymaster/src/modulr_keymaster/app.py:278-355 | the passphrase never changes, and keys are only ever appended: none is lost, replaced or reordered |
| KeymasterRuns.PagesShowDisk | keymaster/src/modulr_keymaster/app.py:247-263 | whatever a page shows is what the vault on disk holds then |
| KeymasterRuns.NoUseAfterIdle | keymaster/src/modulr_keymaster/sessions.py:33-38 | no vault is handed out more than 1800 s after the end of the last request that opened the session or was let in by it; refused requests in between do not count |
| KeymasterRuns.NoUseAfterLifetime | keymaster/src/modulr_keymaster/sessions.py:33-38 | no vault is handed out more than 28800 s after the session was opened, however often touched or replaced; failed attempts to open it do not count |
| KeymasterRuns.SessionTimes | keymaster/src/modulr_keymaster/sessions.py:24-38 | every session's creation time is that of an earlier request that opened it, and its last-seen time no later than the end of one it let in |
| KeymasterVault.SealedProfilesOpen | keymaster/src/modulr_keymaster/vault_crypto.py:44-108 | profiles written and read back are the same profiles, under the same passphrase and no other |
| KeymasterVault.InnerPayloadToProfiles | keymaster/src/modulr_keymaster/profiles.py:74-104 | the loop computes `KeymasterVault.ReadPayload`, one bad entry failing the whole |
| KeymasterVault.ProfilesToInnerPayload | keymaster/src/modulr_keymaster/profiles.py:107-118 | the loop computes `KeymasterVault.Payload` |
| KeymasterVault.RenameProfileInList | keymaster/src/modulr_keymaster/profiles.py:140-151 | renames the first profile with the id in place and no other; true exactly when there is one |
| Branding.HandleWriteUser | src/modulr_core/operations/handlers_branding.py:658-785 | the upserts and the wizard mirror compute `Branding.WriteUser` |
| Branding.WriteTouchesOneColumn | src/modulr_core/repositories/entity_profile_branding.py:57-108 | an image write keeps the description, a description write keeps the image, and other keys or handles change nothing |
| Branding.KeyRowIsLastWrites | src/modulr_core/repositories/entity_profile_branding.py:57-108 | after any writes a key's row exists exactly when it wrote, with its last image and its last description |
| Branding.KeyRowsAreNotHandleRows | src/modulr_core/operations/handlers_branding.py:100-105 | handle rows never alias key rows |
| Branding.ReadsReturnLastWrites | src/modulr_core/operations/handlers_branding.py:340-428 | reading by key returns the last image and the last description |

## Left out

- Numbers.SerializeJsonNumber: compares the shortest decimals with 1e16 and 1e-4 where the source compares the doubles
  (`frontend/lib/modulrWire/canonicalJson.ts:84`); shortest decimals are ordered as their doubles are.
- Number texts beyond the largest double, which Python reads as infinity: the model's parser refuses them. Python's limit of 4300
  digits for an integer.
- Registry.SubmitRoute: a priority beyond 64 bits is refused before the write; the source has by then deleted the scope's dials when
  it replaces, and rolls that back.
- JSON texts with `NaN`, `Infinity` or lone surrogates, and lower-casing outside ASCII.
- Rounding in sums and differences of instants, and of integer instants to doubles. UTF-8 decoding: a body is a text or not UTF-8.
- The free-text `detail` of responses and errors, HTTP status codes, and the envelope around wizard responses.
- HTTP routing, CORS, TLS, logging, the command line beyond the reset command, configuration loading.
- The wizard's body parsers and shape checks, which run before the clock is read and touch no table; logo markup and apex domain.
- Heartbeats, organisation logos, method catalogues and branding reads: `Platform.otherOperation` stands for them. The only one
  that writes a modelled table is `set_organization_logo` on the root organisation, which also sets the logo and `updated_at` of
  the wizard's row (`src/modulr_core/operations/handlers_branding.py:623-635`); no theorem reads either.
- Agreement of an organisation's logo read by name and by key, and of a description-only user row with the wizard's profile
  image: the source promises neither (`src/modulr_core/operations/handlers_branding.py:400-415`, `623-635`).
- A removed last dial leaves the legacy route `{}`, not the route the module was registered with
  (`src/modulr_core/operations/handlers.py:481-490`); the model follows the code.
- Write-once across resets: a reset removes the root name, and a module published under it stays, so the run theorems about
  names are stated between resets.
- The vault's outer envelope (salts, nonces, key derivation parameters) and file permissions; signing itself, export and page
  rendering in Keymaster.
- A second process changing the vault file or the database while a run is going on.
