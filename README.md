# PIDMR provider service — a Dafny model

This project models the core of the PIDMR provider service
(`DatabaseProviderService`). PIDMR resolves persistent identifiers (PIDs). Each
PID provider (DOI, ARK, Handle, …) registers a type, a description, an
example, a set of resolution actions and a list of regular expressions.

The centre of the model is **identification**. `identify` takes the regexes of
all APPROVED providers, in order, and tries each one on the input. A full match
makes the result VALID. A failed attempt that ran into the end of the input
makes it AMBIGUOUS. The scan stops at the first regex that does either.
Around the scan the model covers:

- the two validation queries and the lookup of a provider by pid;
- `create`, with its type-uniqueness and action checks;
- `update`, a field-by-field conditional overwrite that resets the status to PENDING;
- `updateProviderStatus`;
- `getResolutionModes`.

Modules:

- `Entities` (`entities.dfy`): the provider, regex and action records, the
  request bodies, `Validity`, the error kinds and `Option`/`Result`.
- `IdentificationScan` (`identification.dfy`): the mutable `Identification`
  record, `check` as the method `Check`, and the loop's meaning as the function
  `Scan`. It also holds an independent reference, `Classification`, defined by
  the index of the first deciding regex, and the lemmas that relate the two.
- `Registry` (`registry.dfy`): the snapshot of APPROVED regexes, lookup by type
  and by id, the type-existence check, and resolution modes.
- `ProviderService` (`provider_service.dfy`): the class
  `DatabaseProviderService`. Its `providers` field is the provider table. The
  methods `Create`, `Update` and `UpdateProviderStatus` reassign that field.

The regex engine is left uninterpreted. `RegexEngine` holds two total
predicates over (pattern, input): `matches` stands for `Matcher.matches()` and
`hitEnd` for `Matcher.hitEnd()`. The repository queries
`providerRepository.valid(pid)` and `providerRepository.valid(pid, provider)`
are an oracle, `RegexOracle`. The source's field `type` is a reserved word in
Dafny, so it is called `pidType` here.

Three behaviours of the code are worth stating on their own:

- An AMBIGUOUS result also stops the scan
  (DatabaseProviderService.java:121-123). So an earlier regex that only hits
  the end beats a later regex that fully matches (`EarlierHitEndWins`).
- `check` copies the provider's actions on AMBIGUOUS just as on VALID
  (DatabaseProviderService.java:141 and 150).
- `create` refuses a type that already exists
  (DatabaseProviderService.java:302-313). `update` sets a new type without any
  such check (DatabaseProviderService.java:236-239), so one update can leave two
  providers with the same type (`UpdateMayDuplicateType`).

## Model

| member | source | states |
|---|---|---|
| IdentificationScan.ScanIsClassification | src/main/java/org/grnet/pidmr/service/DatabaseProviderService.java:107-154 | The check-and-break loop, started from the INVALID record, equals the reference classification: the first regex that fully matches or hits the end decides the result |
| IdentificationScan.CheckStep | src/main/java/org/grnet/pidmr/service/DatabaseProviderService.java:130-154 | A regex that neither fully matches nor hits the end leaves the record unchanged; one that does fills in its provider's type, example and actions, VALID exactly when it fully matches; the result is INVALID only if it was INVALID and the regex does not decide |
| IdentificationScan.Scan | src/main/java/org/grnet/pidmr/service/DatabaseProviderService.java:117-125 | The loop's result is either the starting record or the record written for some scanned regex that decides; started from INVALID, an INVALID result is the starting record untouched |
| IdentificationScan.FirstDecisive | src/main/java/org/grnet/pidmr/service/DatabaseProviderService.java:117-125 | The index it returns points to a regex that fully matches or hits the end, and no earlier regex does either; it is None exactly when no regex does |
| IdentificationScan.NoDecisiveRegexIsInvalid | src/main/java/org/grnet/pidmr/service/DatabaseProviderService.java:110-127 | With no regexes, or when no regex fully matches or hits the end, the result is INVALID with empty type, example and actions |
| IdentificationScan.FirstDecisiveRegexWins | src/main/java/org/grnet/pidmr/service/DatabaseProviderService.java:117-151 | If regex k is the first that fully matches or hits the end, the result carries its provider's type, example and actions, and is VALID exactly when k fully matches (AMBIGUOUS otherwise) |
| IdentificationScan.IdentifiedIffSomeRegexDecides | src/main/java/org/grnet/pidmr/service/DatabaseProviderService.java:117-151 | The result is VALID or AMBIGUOUS exactly when some regex fully matches or hits the end, and it is then filled in from the provider of the first such regex |
| IdentificationScan.EarlierHitEndWins | src/main/java/org/grnet/pidmr/service/DatabaseProviderService.java:121-123 | An earlier regex that only hits the end wins over any later regex that fully matches: the result is AMBIGUOUS with the earlier provider's type |
| IdentificationScan.FullMatchIsNeverInvalid | src/main/java/org/grnet/pidmr/service/DatabaseProviderService.java:136-143 | An input that fully matches some regex is never INVALID; the reported type is that of a provider whose regex is at or before the matching one |
| IdentificationScan.DecidedPrefixIgnoresRest | src/main/java/org/grnet/pidmr/service/DatabaseProviderService.java:121-123 | Once a prefix of the regexes has produced VALID or AMBIGUOUS, appending more regexes does not change the result (no later regex is examined) |
| IdentificationScan.UndecidedPrefixIsSkipped | src/main/java/org/grnet/pidmr/service/DatabaseProviderService.java:117-125 | A prefix that leaves the record INVALID has no effect: the result is the one of the remaining regexes alone |
| IdentificationScan.Check | src/main/java/org/grnet/pidmr/service/DatabaseProviderService.java:130-154 | Overwrites the record with VALID or AMBIGUOUS and the provider's fields when the pattern fully matches or hits the end; otherwise leaves the record unchanged; never turns VALID or AMBIGUOUS back into INVALID |
| IdentificationScan.Identification.constructor | src/main/java/org/grnet/pidmr/service/DatabaseProviderService.java:112-115 | A new record is INVALID with empty type and example |
| ProviderService.DatabaseProviderService.Identify | src/main/java/org/grnet/pidmr/service/DatabaseProviderService.java:107-128 | The loop over the APPROVED regexes returns a fresh record equal to the scan and to the first-deciding-regex classification |
| Registry.ApprovedRegexes | src/main/java/org/grnet/pidmr/service/DatabaseProviderService.java:110 | Every regex in the snapshot belongs to a stored APPROVED provider and is one of that provider's patterns |
| Registry.ApprovedRegexesComplete | src/main/java/org/grnet/pidmr/service/DatabaseProviderService.java:110 | Every pattern of every APPROVED provider appears in the snapshot |
| Registry.ApprovedRegexesIgnoreUnapproved | src/main/java/org/grnet/pidmr/service/DatabaseProviderService.java:174 | Adding a provider that is not APPROVED (as create's PENDING one) leaves the snapshot, and so every identification, unchanged |
| Registry.WithdrawnProviderLeavesSnapshot | src/main/java/org/grnet/pidmr/service/DatabaseProviderService.java:334-340 | Setting a provider's status to anything but APPROVED removes all its regexes from the snapshot |
| Registry.TypeExists | src/main/java/org/grnet/pidmr/service/DatabaseProviderService.java:302-313 | True exactly when some stored provider, of any status, has the type; in particular whenever an APPROVED provider has it |
| Registry.FindApproved | src/main/java/org/grnet/pidmr/service/DatabaseProviderService.java:69 | Returns a stored APPROVED provider of the requested type, and None exactly when there is none |
| Registry.IndexOf | src/main/java/org/grnet/pidmr/service/DatabaseProviderService.java:234 | Returns the position of the provider with the requested id, and None exactly when no provider has it |
| Registry.ResolutionModes | src/main/java/org/grnet/pidmr/service/DatabaseProviderService.java:287-295 | A mode is in the result exactly when some action of the table has it; there are no more modes than actions |
| ProviderService.DatabaseProviderService.ValidPid | src/main/java/org/grnet/pidmr/service/DatabaseProviderService.java:55-64 | valid is true exactly when the repository yields a regex; the type is that regex's provider type, and "" otherwise |
| ProviderService.DatabaseProviderService.ValidForType | src/main/java/org/grnet/pidmr/service/DatabaseProviderService.java:67-80 | Fails with "This type {t} is not supported." exactly when no APPROVED provider has type t, whatever the pid; otherwise returns type t, and valid is the answer of the query scoped to an APPROVED provider of that type |
| ProviderService.DatabaseProviderService.ProviderByPid | src/main/java/org/grnet/pidmr/service/DatabaseProviderService.java:83-90 | Fails with "… doesn't belong to any of the available types." exactly when valid(pid) is false; otherwise returns exactly the provider of the regex the repository yields, whose type is the one valid(pid) reports |
| ProviderService.DatabaseProviderService.CheckIfActionsSupported | src/main/java/org/grnet/pidmr/service/DatabaseProviderService.java:320-325 | Passes exactly when every requested action id is in the action table |
| ProviderService.DatabaseProviderService.Create | src/main/java/org/grnet/pidmr/service/DatabaseProviderService.java:163-190 | Conflict when any provider of any status has the type; otherwise NotFound when an action is unknown; otherwise adds exactly one PENDING provider with a new id, the requested fields and actions, and the regexes in request order. A refusal changes nothing; the snapshot is unchanged; type uniqueness is preserved |
| ProviderService.DatabaseProviderService.Update | src/main/java/org/grnet/pidmr/service/DatabaseProviderService.java:232-280 | On a stored id: NotFound for unknown actions (nothing changes), otherwise the provider becomes Patched(old, request) and no other provider changes. On a missing id: the null dereference, or NotFound when the type is empty and an action is unknown |
| ProviderService.Patched | src/main/java/org/grnet/pidmr/service/DatabaseProviderService.java:236-277 | Type, name, description and example are overwritten only by non-empty request fields; actions and regexes are replaced wholesale only by non-empty collections; status becomes PENDING; id and creator are kept |
| ProviderService.PatchedIsIdempotent | src/main/java/org/grnet/pidmr/service/DatabaseProviderService.java:232-280 | Applying the same update twice gives the same provider as applying it once |
| ProviderService.EmptyPatchOnlyResetsStatus | src/main/java/org/grnet/pidmr/service/DatabaseProviderService.java:232-280 | An update with all fields and collections empty changes only the status, to PENDING |
| ProviderService.UpdateMayDuplicateType | src/main/java/org/grnet/pidmr/service/DatabaseProviderService.java:236-239 | Update can give a provider another provider's type, breaking the uniqueness that create enforces |
| ProviderService.DatabaseProviderService.UpdateProviderStatus | src/main/java/org/grnet/pidmr/service/DatabaseProviderService.java:334-340 | Changes only the status of the provider with that id (the null dereference when there is none); a non-APPROVED status takes all its regexes out of the snapshot |
| ProviderService.AddActions | src/main/java/org/grnet/pidmr/service/DatabaseProviderService.java:175-177 | The addAction loop ends with exactly the old actions plus the requested ones |
| ProviderService.AddRegexes | src/main/java/org/grnet/pidmr/service/DatabaseProviderService.java:179-185 | The addRegex loop appends the requested regexes in request order |
| ProviderService.ReplaceActions | src/main/java/org/grnet/pidmr/service/DatabaseProviderService.java:244-246 | Removing every current action over a copy and then adding the requested ones leaves exactly the requested set |
| ProviderService.ReplaceRegexes | src/main/java/org/grnet/pidmr/service/DatabaseProviderService.java:250-258 | Removing every current regex over a copy and then adding the requested ones leaves exactly the requested list, in request order |

## Left out

- Regular-expression semantics: `Pattern.compile`, `Matcher.matches` and
  `Matcher.hitEnd` belong to java.util.regex. They are the uninterpreted
  `RegexEngine` predicates. A malformed stored pattern would make
  `Pattern.compile` throw in the middle of a scan; that is not modelled.
- Repository query internals. The order of
  `findAllRegexesBelongsToApprovedProviders` is not visible. The model takes
  provider registration order, then each provider's regex order.
  `providerRepository.valid(pid[, provider])` is an oracle.
- ProviderStatus: the enum is not part of this model. The values PENDING,
  APPROVED, REJECTED and DEPRECATED are assumed.
- ProviderService.DatabaseProviderService.ValidForType: when several APPROVED
  providers share a type, the query's `firstResultOptional` order is not
  visible. The model takes the first in table order (`FindApproved`), and the
  contract promises only "an APPROVED provider of that type".
- Identification.actions: the source copies a list of action DTOs from
  `ProviderMapper`. The model keeps the provider's set of action ids. `identify`
  never initialises the field, so the source leaves it null when the result is
  INVALID; the model uses the empty set.
- `pagination`, `adminPagination`, `PageResource` and `ProviderMapper` DTO
  conversion: presentation glue.
- `getProviderById`, `deleteProviderById` and
  `deleteProviderByIdWithoutCheckingPermissions`: pure delegation to the
  repository.
- `@Transactional` and `@ManageEntity` interceptors. The permission checks are
  not modelled. A rollback is modelled only as "a failing call changes
  nothing".
- Null request fields: `StringUtils.isNotEmpty(null)` is false. The model has
  no null strings, so the empty string plays that role.
- The creator id comes from `RequestUserContext`; here it is a parameter of
  `Create`. The database generates provider ids; the model uses the counter
  `nextId`. Java `Long` ids are unbounded `nat`s.
- Concurrency between requests: each operation is atomic in the model.
- KeycloakAdminService (a network client), ValidationExceptionMapper
  (exception-to-HTTP plumbing) and PageLink (a data holder without behaviour).
