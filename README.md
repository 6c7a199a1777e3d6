# OTC marketplace backend — a Dafny model

This project models the NestJS backend of an over-the-counter marketplace. Issuing companies ("emitters") do three things:

- register and keep a profile;
- go through moderation by an administrator;
- pay for placement periods ("subscribes") that make them visible in a public screener.

Investors browse the screener, open a company card (which counts a page view) and leave their contact details (which counts an external-link click and upserts an investor).

**The model has these parts:**

- **Tables.** The TypeORM tables are classes in module `Store`:
  - `emitents`, `admin`, `subscribes`, `payments` and `investors` are kept as `seq` fields. The primary key is the row's position.
  - `financial_data` and `analitics`, each unique on `emitent_id`, are kept as `map` fields.
  - Every class has a `Valid()` invariant: keys, plus the unique columns of `emitents`, `admin` and `investors` and the declared widths of the `emitents` columns.
- **Services.** Each service is a module. Each operation is a function (pure lookups, filters, ordering, paging, login checks) or a method (operations that write rows). A method's `ensures` gives the whole new state in terms of specification functions. Lemmas state what those functions promise.
- **Request bodies and query strings** are one module per DTO. Validity is a predicate over the decorators. A `Resolve` function fills in the defaults.
- **Time** is a whole day number `today`. The current instant lies strictly after the midnight that opens day `today`. So every source comparison of a `date` column with `new Date()` becomes:
  - a period is live when `endDate > today`;
  - it has expired when `endDate <= today`.
- **Validator checks and cryptography are parameters.** `IsEmail`, `IsUrl` and `IsUUID` are function-valued parameters (`FormatChecks`). So are bcrypt's hash and compare and JWT signing (`Crypto`).
- **JSON numbers** in DTOs are `real`, so a missing integer check is visible.
- **SQL `ORDER BY`** is a stable insertion sort, proved sorted and a permutation. A NULL sorts as the greatest value, as in PostgreSQL.

**Behaviour worth knowing:**

- **Reading the current subscription is not idempotent.**
  - `getCurrentSubscription` disables at most one ended period per call.
  - With two ended active periods, a second read still writes (`SubscribesService.SecondReadCanStillWrite`).
  - What is stable is the answer: `ReadIsStable`.
- **Resubmission clears the rejection reason.** Submitting a rejected profile for review (status `pending`) erases it (`EmittersService.ResubmissionClearsReason`).
- **The price per day is 100**, both in the tariff info and in the activation charge.
- **`duration_days` has no upper bound and no integer check** (`ActivateSubscriptionDto.DurationRule`). A duration beyond the `int` column is paid for and then refused, leaving a completed payment without a period (`SubscribesService.ValidDurationCanOrphanPayment`).

## Model

| member | source | states |
|---|---|---|
| Collections.FirstIndex | back/src/emitters/emitters.service.ts:25-27 | the position found holds the first row meeting the condition; none is found exactly when no row meets it |
| Collections.Find | back/src/emitters/emitters.service.ts:25-45 | the row `findOne({ where })` returns meets the condition; none is returned exactly when no row meets it |
| Collections.Filter | back/src/emitters/emitters.service.ts:122-188 | a WHERE clause keeps exactly the rows that meet it, as many as `Count` says |
| Ordering.Sort | back/src/emitters/emitters.service.ts:190-206 | ORDER BY returns the same rows, each as often as before |
| Ordering.SortSorted | back/src/emitters/emitters.service.ts:206 | the result of ORDER BY is ordered by the column in the requested direction, NULL greatest |
| Paging.PageOf | back/src/emitters/emitters.service.ts:208-211 | `skip((page-1)*limit).take(limit)`: at most `limit` rows; exactly the slice from the offset; empty past the end; full when enough rows follow |
| Paging.EveryRowOnItsPage | back/src/emitters/emitters.service.ts:208-211 | row `k` of a result is at slot `k % limit` of page `k / limit + 1` |
| Paging.PastTheEndIsEmpty | back/src/emitters/emitters.service.ts:208-211 | a page is empty exactly when its offset is at or past the end of the result |
| Validation.DigitRunMeans | back/src/auth/dto/register-emitter.dto.ts:51-56 | `^\d{n}$` holds exactly of strings of n decimal digits |
| Validation.InnPatternMeans | back/src/auth/dto/register-emitter.dto.ts:51-56 | an INN passes exactly when it is 10 or 12 digits |
| Validation.OgrnPatternMeans | back/src/auth/dto/register-emitter.dto.ts:63-68 | an OGRN/OGRNIP passes exactly when it is 13 or 15 digits |
| Decimal.NatToString | back/src/subscribes/subscribes.service.ts:84 | `${n}` for a natural number is a non-empty digit string without a leading zero |
| Decimal.NatToStringRoundTrip | back/src/subscribes/subscribes.service.ts:84 | reading the rendered number back gives the number |
| Decimal.IntToString | back/src/subscribes/subscribes.service.ts:84 | `${n}` for any integer: the digits of its magnitude, after a minus sign when negative |
| Store.IndexById | back/src/emitters/emitters.service.ts:43-45 | a key is found exactly when some row carries it; with keys equal to positions, exactly when it is below the row count |
| Store.EmitterTable.Insert | back/src/emitters/emitters.service.ts:47-50 | a new emitter is appended under the next key unless a value is wider than its column (name, email, password, website and logo 255, INN 12, OGRN 15, phone 20) or a unique column clashes; a refusal changes nothing |
| Store.EmitterTable.Save | back/src/emitters/emitters.service.ts:68-69 | a loaded emitter is overwritten in place unless a value is wider than its column or a unique column clashes; a refusal changes nothing |
| RegisterEmitterDto.ValidMeans | back/src/auth/dto/register-emitter.dto.ts:13-124 | a registration body passes exactly when the name has 2-255 characters, the email is an address of at most 255 characters, the password has at least 8 characters (no composition rule), INN and OGRN have their digit counts when given, and the website and logo are URLs when given |
| RegisterEmitterDto.FreeTextIsUnchecked | back/src/auth/dto/register-emitter.dto.ts:75-114 | the address, phone and description fields never change the verdict |
| UpdateEmitterProfileDto.ValidMeans | back/src/emitters/dto/update-emitter-profile.dto.ts:12-106 | every profile field is optional and is checked, only when sent with a value, by the registration rules; a `null` passes for every field, the name included |
| UpdateEmitterProfileDto.NullsPassValidation | back/src/emitters/dto/update-emitter-profile.dto.ts:19-27 | sending `null` for the name, INN, OGRN, website or logo keeps a valid update valid |
| UpdateEmitterProfileDto.EmptyUpdateIsValid | back/src/emitters/dto/update-emitter-profile.dto.ts:19-27 | an update that supplies nothing passes |
| UpdateEmitterStatusDto.StatusOf | back/src/admin/dto/update-emitter-status.dto.ts:6-19 | a validated decision is `approved` or `rejected`, never `pending` |
| UpdateEmitterStatusDto.PendingIsRefused | back/src/admin/dto/update-emitter-status.dto.ts:16-19 | an administrator cannot send `pending` |
| UpdateEmitterStatusDto.RejectionWithoutReasonPasses | back/src/admin/dto/update-emitter-status.dto.ts:26-29 | the reason is optional at validation even for a rejection |
| ActivateSubscriptionDto.DurationRule | back/src/subscribes/dto/activate-subscription.dto.ts:4-11 | a fractional or very long duration passes; zero and negative durations are refused |
| LoginAdminDto.NoIdentifierPasses | back/src/auth/dto/login-admin.dto.ts:18-45 | a body with neither username nor email passes validation |
| LoginEmitterDto.Messages | back/src/auth/dto/login-emitter.dto.ts:5-18 | no message exactly when email and password are well formed; the format message appears for a bad email or a short password; the length message appears exactly for an email over 255 characters |
| LoginEmitterDto.SameMessageForEitherFault | back/src/auth/dto/login-emitter.dto.ts:5-18 | a short password and a malformed email produce the same message |
| TrackInvestorInterestDto.Bounds | back/src/emitters/dto/track-investor-interest.dto.ts:5-28 | an empty name passes; the phone may be omitted; a 21-character phone is refused |
| GetEmittersFilterDto.Resolve | back/src/admin/dto/get-emitters-filter.dto.ts:19-44 | page defaults to 1 and limit to 20; limit stays within 1..100; the status string maps one-to-one onto the three statuses |
| GetEmittersFilterDto.EmptyQueryDefaults | back/src/admin/dto/get-emitters-filter.dto.ts:28-44 | the empty query passes and asks for page 1 of 20 with no status |
| GetEmittersFilterDto.OutOfRangeIsRefused | back/src/admin/dto/get-emitters-filter.dto.ts:19-44 | a limit above 100, a fractional page and an unknown status are refused |
| GetPublicEmittersFilterDto.Resolve | back/src/emitters/dto/get-public-emitters-filter.dto.ts:57-93 | page 1, limit 20, `market_cap`, `DESC` unless given; each named sort column and direction maps to its own value; the filters are passed through |
| GetPublicEmittersFilterDto.EmptyQueryDefaults | back/src/emitters/dto/get-public-emitters-filter.dto.ts:57-93 | the empty query passes and means page 1 of 20, largest market capitalisation first |
| GetPublicEmittersFilterDto.BoundsAreIndependent | back/src/emitters/dto/get-public-emitters-filter.dto.ts:138-194 | a minimum above its maximum is not refused |
| GetPublicEmittersFilterDto.NegativeMinimumIsRefused | back/src/emitters/dto/get-public-emitters-filter.dto.ts:138-184 | a negative minimum is refused |
| PaymentsService.CreatePayment | back/src/payments/payments.service.ts:15-18 | the payment is appended under the next key and returned as stored, unless its amount is too large for the `decimal(18,2)` column, which stores nothing |
| FinancialDataService.CreateInitialFinancialData | back/src/financial-data/financial-data.service.ts:15-23 | a new emitter gets a record with only its key, no dividends and the inactive status; a second record for the same emitter is refused and changes nothing |
| AnaliticsService.Bumped | back/src/analitics/analitics.service.ts:25-40 | an increment raises one counter of one emitter by one; every other record and counter is untouched; an unknown emitter changes nothing |
| AnaliticsService.BumpsNeverDecrease | back/src/analitics/analitics.service.ts:25-40 | any sequence of increments keeps every record and never lowers a counter |
| AnaliticsService.CreateInitialAnalitics | back/src/analitics/analitics.service.ts:15-22 | a new emitter gets zero counters; a second record is refused and changes nothing |
| AnaliticsService.IncrementPageViews | back/src/analitics/analitics.service.ts:25-31 | the table after the call is the page-view increment of the table before it |
| AnaliticsService.IncrementExternalLinkClicks | back/src/analitics/analitics.service.ts:34-40 | the table after the call is the link-click increment of the table before it |
| InvestorsService.IndexOfEmail | back/src/investors/investors.service.ts:19-21 | the investor found carries the email; none is found exactly when no investor has it |
| InvestorsService.OrNull | back/src/investors/investors.service.ts:25 | `phone \|\| null`: an absent or empty phone becomes NULL, any other is kept |
| InvestorsService.UpsertUpdatesExisting | back/src/investors/investors.service.ts:23-26 | a known email updates that investor's name and phone in place and touches no other row |
| InvestorsService.UpsertInsertsNew | back/src/investors/investors.service.ts:27-30 | a new email appends one investor with the supplied name, email and phone and role `investor` |
| InvestorsService.UpsertKeepsValid | back/src/investors/investors.service.ts:16-31 | keys and the unique email column survive, and exactly one investor has the email afterwards |
| InvestorsService.UpsertTwice | back/src/investors/investors.service.ts:16-31 | repeating an interest leaves one investor with the email; the table is unchanged unless the phone was empty |
| InvestorsService.EmptyPhoneIsNotIdempotent | back/src/investors/investors.service.ts:25-29 | an empty phone is stored as "" on insert and NULL on update, so a repeat changes the row |
| InvestorsService.CreateInvestorInterest | back/src/investors/investors.service.ts:16-31 | the investors table becomes the upsert of the submitted contact; the saved investor has its name and email |
| SubscribesService.GetTariffInfo | back/src/subscribes/subscribes.service.ts:26-40 | the one tariff costs 100 for one day |
| SubscribesService.LatestActive | back/src/subscribes/subscribes.service.ts:68-71 | the furthest-reaching active period of the emitter, if it has any |
| SubscribesService.StartDate | back/src/subscribes/subscribes.service.ts:59-80 | a new period starts today when none is running; otherwise it starts the day after the furthest running period ends, after every running period |
| SubscribesService.ActivateSubscription | back/src/subscribes/subscribes.service.ts:42-94 | an unknown emitter is refused with nothing written; an amount too large for its column stores nothing; a duration outside the `int` column fails after the completed payment is stored, leaving it without a period; otherwise one completed payment of the advertised tariff's daily price for each day, and one active period of the requested length, starting as `StartDate` says, are appended |
| SubscribesService.ValidDurationCanOrphanPayment | back/src/subscribes/dto/activate-subscription.dto.ts:4-11 | a duration of three thousand million days passes validation, lies outside the `int` column, yet gives an amount the payment column holds |
| SubscribesService.CurrentSubscription | back/src/subscribes/subscribes.service.ts:96-109 | the answer is the furthest-reaching active period exactly when a period is still running |
| SubscribesService.AfterRead | back/src/subscribes/subscribes.service.ts:102-106 | a read changes nothing while a period is running or when the emitter has no active period; otherwise it disables exactly the furthest-reaching active period, which has ended, and changes no other row |
| SubscribesService.GetCurrentSubscription | back/src/subscribes/subscribes.service.ts:96-109 | returns `CurrentSubscription` and writes back `AfterRead` |
| SubscribesService.ReadIsStable | back/src/subscribes/subscribes.service.ts:96-109 | a second read gives the same answer as the first |
| SubscribesService.SecondReadCanStillWrite | back/src/subscribes/subscribes.service.ts:102-106 | with two ended active periods, the second read still disables one |
| SubscribesService.ReadIsLocal | back/src/subscribes/subscribes.service.ts:98-106 | a read never touches another emitter's periods |
| EmittersService.FindByEmail | back/src/emitters/emitters.service.ts:25-27 | finds an emitter with the email exactly when one exists |
| EmittersService.FindByName | back/src/emitters/emitters.service.ts:29-31 | finds an emitter with the name exactly when one exists |
| EmittersService.FindByInn | back/src/emitters/emitters.service.ts:33-36 | an empty INN finds nothing; a non-empty one finds an emitter with it exactly when one exists |
| EmittersService.FindByOgrn | back/src/emitters/emitters.service.ts:38-41 | an empty OGRN finds nothing; a non-empty one finds an emitter with it exactly when one exists |
| EmittersService.FindById | back/src/emitters/emitters.service.ts:43-45 | with keys equal to positions, a key finds its row exactly when it is below the row count |
| EmittersService.LookupsFindTheOwner | back/src/emitters/emitters.service.ts:25-45 | with unique columns, every lookup by a column of a row returns that very row |
| EmittersService.Create | back/src/emitters/emitters.service.ts:47-59 | a value too wide for its column or a unique clash writes nothing; otherwise the emitter is appended with an initial financial record and a zeroed analytics record; from linked tables, it succeeds exactly when every value fits and no unique column clashes, and the tables stay linked |
| EmittersService.ApplyPatch | back/src/emitters/emitters.service.ts:68 | a profile update never touches key, email, password, status, reason or creation time; it gives no row exactly when the name is sent as `null` |
| EmittersService.EmptyPatchChangesNothing | back/src/emitters/emitters.service.ts:68 | an update that supplies nothing gives back the stored row |
| EmittersService.PatchIsIdempotent | back/src/emitters/emitters.service.ts:68 | applying the same update twice equals applying it once |
| EmittersService.PatchOverwrites | back/src/emitters/emitters.service.ts:68 | for the name and all eight nullable columns: a sent value shows up in the row, a `null` clears the column, a field left out keeps its stored value |
| EmittersService.ValidUpdateCanOverflowPhone | back/src/emitters/dto/update-emitter-profile.dto.ts:71-78 | a phone longer than 20 characters passes validation yet is too wide for the `varchar(20)` column |
| EmittersService.Update | back/src/emitters/emitters.service.ts:61-70 | an unknown emitter is a bad request; otherwise a `null` name, a value too wide for its column and a unique clash are internal errors; any refusal changes nothing, and a success saves exactly the patched row |
| EmittersService.Moderated | back/src/emitters/emitters.service.ts:84-91 | only status and reason change; the emitter has a reason exactly when it is rejected, and a rejection keeps the reason given |
| EmittersService.ResubmissionClearsReason | back/src/emitters/emitters.service.ts:90-91 | resubmitting for review or approving erases an earlier rejection reason |
| EmittersService.ModerationFits | back/src/emitters/emitters.service.ts:90-92 | a moderation decision can never clash with a unique column |
| EmittersService.UpdateStatus | back/src/emitters/emitters.service.ts:72-93 | an unknown emitter, then a rejection without a non-empty reason, are refused with nothing changed; otherwise the moderated emitter replaces the row |
| EmittersService.GetPublicEmitterDetails | back/src/emitters/emitters.service.ts:232-273 | a card is returned exactly for an approved emitter with a running placement; its page views rise by one then and only then; an approved emitter's lazy expiry is written back |
| EmittersService.DetailsGateIsScreenerGate | back/src/emitters/emitters.service.ts:245-251 | a card is shown exactly for the emitters the unfiltered screener lists |
| EmittersService.DaysRemaining | back/src/emitters/emitters.service.ts:314-317 | for a running period, the whole days left are non-negative and less than the days until its end |
| EmittersService.GetEmitterProfile | back/src/emitters/emitters.service.ts:275-333 | the profile of a known emitter holds every stored column but the password; the placement appears exactly when one is running, and then shows the current period's key, tariff, dates and status, `is_active` true and non-negative `days_remaining`; the counters come from the analytics record |
| AdminService.FindByUsername | back/src/admin/admin.service.ts:18-20 | finds an administrator with the username exactly when one exists |
| AdminService.FindByEmail | back/src/admin/admin.service.ts:22-24 | finds an administrator with the email exactly when one exists; one without an email is never found |
| AdminService.FindById | back/src/admin/admin.service.ts:26-28 | with keys equal to positions, a key finds its row exactly when it is below the row count |
| AdminService.LookupsFindTheOwner | back/src/admin/entities/admin.entity.ts:15-19 | with unique usernames and unique non-NULL emails, a lookup by an administrator's username or email returns that very administrator |
| AdminService.GetEmitters | back/src/admin/admin.service.ts:35-53 | a page holds at most `limit` stored emitters, each of the asked status; the total counts every emitter of that status; page and limit are echoed |
| AdminService.ListIsNewestFirst | back/src/admin/admin.service.ts:42-49 | the list is ordered newest first and holds each emitter of the asked status exactly once |
| AdminService.PageIsSlice | back/src/admin/admin.service.ts:46-50 | a page is the slice of the list from `(page-1)*limit` |
| AdminService.EveryMatchIsOnAPage | back/src/admin/admin.service.ts:35-53 | every emitter of the asked status is on some page |
| AdminService.TotalIgnoresPaging | back/src/admin/admin.service.ts:35-53 | the total does not depend on page or limit, and without a status it is the number of emitters |
| AdminService.UpdateEmitterStatus | back/src/admin/admin.service.ts:59-81 | approving or rejecting follows `EmittersService.UpdateStatus`; the result has a reason exactly when it is a rejection |
| AuthService.SanitizeDropsOnlyPassword | back/src/auth/auth.service.ts:41-51 | two rows give the same sanitised data exactly when they differ at most in the password hash |
| AuthService.RegistrationConflict | back/src/auth/auth.service.ts:58-86 | the conflict reported is the first of taken email, taken name, taken non-empty INN, taken non-empty OGRN; none is reported exactly when none holds |
| AuthService.NewEmitter | back/src/auth/auth.service.ts:88-99 | a registered emitter starts pending, without a reason, with the password hashed |
| AuthService.ValidHasNoEmptyKeys | back/src/auth/dto/register-emitter.dto.ts:51-68 | a validated registration never has an empty INN or OGRN, the values the conflict checks skip |
| AuthService.ChecksGuardTheInsert | back/src/auth/auth.service.ts:58-99 | when no conflict is reported, the new row clashes with no unique column |
| AuthService.Register | back/src/auth/auth.service.ts:53-122 | a conflict is refused with its reason and nothing written; a value too wide for its column is an internal error with nothing written; on success the emitter, its initial financial record and its zeroed counters are created and a token for role `emitter` is signed; from linked tables a conflict-free validated registration whose values fit always succeeds |
| AuthService.Login | back/src/auth/auth.service.ts:124-154 | every failure is the same "wrong email or password"; success needs an emitter with the email whose hash matches the password |
| AuthService.LoginChecksTheOwner | back/src/auth/auth.service.ts:128-140 | with unique emails, login succeeds exactly when the password matches the hash of the account with that email |
| AuthService.AdminCandidate | back/src/auth/auth.service.ts:167-172 | the administrator is looked up by username when one is given, else by email |
| AuthService.LoginAdmin | back/src/auth/auth.service.ts:156-202 | missing credentials are refused exactly when neither identifier is given; every other failure is "wrong username or password"; with an identifier, login succeeds exactly when the looked-up administrator exists and its hash matches, and answers with its token and its row without the password |
| AuthService.LoginAdminChecksTheOwner | back/src/auth/auth.service.ts:167-188 | with unique usernames and emails, login by an administrator's username, or by its email alone, succeeds exactly when the password matches that administrator's hash |
| AuthService.UsernameTakesPrecedence | back/src/auth/auth.service.ts:167-172 | when a username is given, the email sent with it never changes the outcome |
| AuthService.ValidateUserById | back/src/auth/auth.service.ts:204-214 | role `emitter` looks in the emitter store, `admin` in the administrator store, anything else finds nothing; a key is found exactly when it is below the row count |
| JwtStrategy.Validate | back/src/auth/strategies/jwt.strategy.ts:38-74 | an unknown role is refused; for a known role, an unknown subject is refused and a known one yields the principal built from the stored row |
| JwtStrategy.EmitterTokensValidate | back/src/auth/strategies/jwt.strategy.ts:56-63 | a token issued to a stored emitter validates to that emitter |
| JwtStrategy.AdminTokensValidate | back/src/auth/strategies/jwt.strategy.ts:39-73 | an administrator token validates only when the stored role is `admin`; any other non-emitter role is refused as unknown |
| PublicScreener.Joined | back/src/emitters/emitters.service.ts:131 | the left join gives each emitter exactly one listing with its financial record, if any |
| PublicScreener.Summaries | back/src/emitters/emitters.service.ts:213-229 | each listing is mapped to its summary, in order |
| PublicScreener.Lower | back/src/emitters/emitters.service.ts:134-141 | lowering keeps the length and lowers each letter |
| PublicScreener.RankedAreShown | back/src/emitters/emitters.service.ts:122-206 | every ranked listing is the listing of an emitter that passes the gate and the filters |
| PublicScreener.PageIsShown | back/src/emitters/emitters.service.ts:122-211 | every listing on a page is the listing of a shown emitter |
| PublicScreener.GetPublicEmitters | back/src/emitters/emitters.service.ts:95-230 | a page holds at most `limit` summaries, each of a shown emitter; the total counts the shown emitters; page and limit are echoed; order and offset in `PageIsRankedSlice` |
| PublicScreener.PageIsRankedSlice | back/src/emitters/emitters.service.ts:190-229 | entry `i` of a page summarises the shown listing at position `(page-1)*limit + i` of the ranking, so a page is the shown emitters in the requested order, sliced at the offset |
| PublicScreener.RankedIsOrdered | back/src/emitters/emitters.service.ts:190-206 | the shown listings come out ordered by the requested column and direction, none lost or repeated |
| PublicScreener.PositionInRanking | back/src/emitters/emitters.service.ts:190-206 | every shown listing has a place in the ranking |
| PublicScreener.EveryShownEmitterIsOnAPage | back/src/emitters/emitters.service.ts:95-230 | every shown emitter appears on some page of the same query |
| PublicScreener.TotalIgnoresPaging | back/src/emitters/emitters.service.ts:208-211 | the total does not depend on page or limit |
| PublicScreener.InitialRecordMatchesNoFinancialFilter | back/src/emitters/emitters.service.ts:133-188 | an emitter whose financial record was never filled in passes a financial filter only when the filter is absent or empty, or, for dividends, asks for `has_dividends=false` |
| PublicEmittersController.GetPublicEmitterDetails | back/src/public-emitters/public-emitters.controller.ts:166-177 | a card that is not shown is refused with "not found or not approved" and no page view; a shown card is returned and counted; for an approved emitter the ledger becomes `AfterRead` of the old one (the lazy expiry), otherwise it is unchanged |
| PublicEmittersController.TrackInvestorInterest | back/src/public-emitters/public-emitters.controller.ts:195-210 | an unknown emitter is refused with nothing written; otherwise the investor is upserted and one link click is counted, and no page view changes |

## Left out

- Row identity: ids are natural numbers assigned in order, not UUIDs. Dates are day numbers, not TypeORM's date strings, and `updated_at` columns are not modelled.
- The SQL engine's order among rows with equal sort keys is not specified. The model keeps insertion order: its sort is stable.
- `ILIKE` wildcards typed by the user (`%`, `_`) are matched literally. Letter case is folded for Latin and Cyrillic only.
- NestJS wiring is left out: modules, guards, interceptors, Swagger decorators and HTTP status mapping. Errors are a `Result` with the exception kind and message key.
- The response cache on the public endpoints is left out. With it, a cached card is served without counting a page view; the model counts one for every call.
- Concurrency is left out. Two concurrent registrations or activations can race between check and insert; the model runs operations one at a time.
- bcrypt salting, JWT expiry and the signature check are left out. Hashing, comparing and signing are opaque parameters.
- The `@Type(() => Boolean)` conversion of `has_dividends` is left out (it reads the string "false" as true). The filter takes a boolean.
- ActivateSubscription: takes `duration_days` as a whole number. The DTO admits fractions, and date arithmetic on a fraction is not modelled.
- ActivateSubscription: day numbers are unbounded. A duration inside the `int` range whose end date lies beyond what a JavaScript `Date` holds (100,000,000 days from 1970) makes `addDays` give an invalid date, and the source then fails after the payment is stored; the model records the period.
- NewEmitter: assumes the registration body carries only the fields it declares. `register` spreads the rest of the body into the new row, so without the validation pipe's `whitelist` option (set in `main.ts`, which is not part of this model) a body naming `status` or `rejection_reason` would be stored, and the emitter would not start pending.
- Upsert: assumes the interest body carries only the fields it declares. A new investor is created from the whole body, so without the `whitelist` option a body naming `role` would override the default `investor`.
- Admin `create` (admin.service.ts:30-33) is left out: it stores an administrator row as given, and no endpoint calls it.
- Admin `getEmitterDetails` (admin.service.ts:55-57) is `findById` on emitters (`EmittersService.FindById`).
- The administrator list returns full rows, including password hashes. The model returns the rows and says nothing about what the controller sends.
- The controllers' stripping of the password for the profile and moderation endpoints is not modelled apart from `AuthService.SanitizeEmitter`.
- The frontend, seed scripts and migrations are not part of this model.
- `emitent_id` in a token is trusted as issued. Token forgery is outside the model.
- ApplyPatch: assumes the body carries only the fields the update declares. The global validation pipe is configured in `main.ts`, which is not part of this model; without its `whitelist` option a body naming `email`, `password` or `status` would be assigned as well.
- Update: when a patch both sends a `null` name and a value too wide for its column, the model reports the NOT NULL violation; which constraint the database reports first is not modelled. Both surface as an internal error.
- Ordering.SortSorted: text columns (the name) are ordered by character code (`Ordering.TextLe`). PostgreSQL orders them by the database collation, which `data-source.ts` leaves to the server and which can order differently (for instance, ignoring case).

