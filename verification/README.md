# Verified model of the system ability manager

The system ability manager (samgr) is a registry of system abilities with one registry for the
system and one per user. This project models the parts where several tables, changed under different
locks and by several threads, have to stay consistent, and proves what they promise over every input
and every run. `dafny verify dfyconfig.toml` checks it.

Two kinds of model appear. Where the source is an object whose methods edit its fields, there is a
class whose methods do the same edits and are proved against functions on values; what the source
promises is then proved about those functions. Where the source is a protocol between threads, there
is a step system with one step per critical section, an invariant that every step keeps, and results
about every state of every run, whatever the interleaving.

| file | contents |
|---|---|
| `Common.dfy` | identifiers, result codes, limits |
| `SubscriptionView.dfy` | what a user manager's tables mean: direct set, foreground set, who pays |
| `ListenerTables.dfy`, `UserManagers.dfy` | the tables of one user manager, their edits, and the proof that they refine the view |
| `BaseSubscriptions.dfy` | conservation of subscriptions over every call sequence |
| `UserLifecycle.dfy` | subscriptions for all users: fan-out, rollback, replay into a new manager |
| `TwoLevel.dfy`, `TwoLevelCalls.dfy`, `TwoLevelRuns.dfy` | the same, manager by manager, interleaved with direct calls and deaths; what the calls achieve; a run that shows what a direct call meanwhile can do |
| `LifecycleProtocol.dfy`, `LifecycleResults.dfy`, `StopTasks.dfy` | user activation, switching, stopping and delayed teardown; cancelling the delayed tasks |
| `Registries.dfy`, `Routing.dfy`, `RoutingCalls.dfy` | ability maps, routing of calls, lookups against the log of registrations, what calls and user changes do to lookups |
| `AddNotification.dfy` | a registration racing with subscriptions |
| `PendingLoads.dfy`, `LoadTables.dfy` | callbacks that wait for an ability to be loaded |
| `DynamicCaches.dfy`, `ClientCache.dfy`, `CacheQueries.dfy` | the client's one-slot cache and its waterline, the server's table, whole queries |
| `OnDemandEvents.dfy`, `EventParcels.dfy` | wire format of on-demand events, parcel writers and readers, conversions |
| `LookupStatistics.dfy`, `IdleProcesses.dfy` | lookup counters and their report; the list of idle processes |
| `ConcurrentMaps.dfy`, `TimerService.dfy`, `TimerCalls.dfy`, `TimerRuns.dfy` | the map of timer tasks, the service threads, what becomes of posted tasks, and three runs that fail, delay or get stuck |

The results depend on each other. Rolling back a refused subscription is exact only for a listener
that did not already hold a foreground subscription (`RollbackIsExact`), which the agreement between
the global list and every manager guarantees; replaying the list into a new manager cannot be refused
only because the list is free of duplicates and within every process's quota (`ReplayFits`).

Places where the code does less than a reader might expect are kept as they are and stated exactly:

- Subscribing on a manager without its death recipient charges the process and lists nothing. The
  counts stay exact if and only if the id is illegal, the listener is listed already or the process is
  full (`SubscribeWithoutRecipient`); one legal call on a destroyed manager breaks them
  (`DestroyedManagerLeaks`).
- A refused subscribe-for-all leaves every manager exactly as it was that no direct call and no death
  notice worked on meanwhile (`AllOrNothing`). In general the refused process is left with a charge if
  and only if the listener is directly subscribed when the visit is taken back and nobody else paid for
  it before the visit (`WhoPaysAfterRefusal`); `DirectCallMeanwhileIsMischarged` is such a run.
- A list of on-demand events comes back from its encoding if and only if all sizes are `int32_t`
  values (`RoundTripIff`, `OversizedListIsLost`); converting an internal event out and back in is the
  identity if and only if it carries nothing extra (`ConversionBackRoundTrip`).
- The timer service keeps every stored task with its timer or with a thread that serves it, for every
  interleaving and every reuse of descriptor numbers (`StoredTasksHaveTheirTimers`). While a task is
  stored, all threads can be stuck for good only if one of them reads a timer posted with delay 0,
  which never expires (`NeverAllStuckForGood`, `PositiveDelaysAreServed`,
  `DisarmedCanStickEveryThread`). The service goes on exactly as long as no thread calls the task of a
  timer that its poster has armed and not stored yet (`DependableIff`, `EarlyExpiryFails`). A read
  waits for a timer that has not expired if and only if its number was given to a new timer after the
  thread's poll (`WaitsIffReused`), and with every thread in such a read an expired timer has to wait
  (`ReuseCanDelay`).

## Model

| member | source | states |
|---|---|---|
| SubscriptionView.SubscribeKeepsValid | services/samgr/native/source/multi_system_ability_manager.cpp:247-256 | a subscription adds exactly its key to its own kind or changes nothing; accepted iff the id is legal and the key is known or the process is below 256 |
| SubscriptionView.UnsubscribeKeepsValid | services/samgr/native/source/multi_system_ability_manager.cpp:264-275 | removing one kind of subscription never cancels the other, and the listener table stays the union of both |
| SubscriptionView.DropListenerKeepsValid | services/samgr/native/source/multi_system_ability_manager.cpp:277-296 | dropping a dead listener keeps the union and the quotas |
| SubscriptionView.RollbackIsExact | services/samgr/native/source/user_lifecycle_manager.cpp:384-394 | undoing an accepted subscription restores both sets and every charge iff the key did not hold that kind before |
| SubscriptionView.ResubscribeIsExact | services/samgr/native/source/user_lifecycle_manager.cpp:396-406 | undoing an unsubscription restores everything when the same process pays |
| ListenerTables.SubscribeMeaning | services/samgr/native/source/base_system_ability_manager.cpp:822-855 | on tables with exact counts the inherited subscribe lists and charges exactly one new key, or refuses or finds it and changes nothing, and counts stay exact and within 256 |
| ListenerTables.SubscribeWithoutRecipient | services/samgr/native/source/base_system_ability_manager.cpp:844-849 | without the death recipient the counts stay exact iff the id is illegal, the listener is listed already or its process has 256 |
| ListenerTables.DestroyedManagerLeaks | services/samgr/native/source/base_system_ability_manager.cpp:839-855 | one legal subscription on a destroyed manager is accepted and leaves a count for a process that is listed nowhere |
| ListenerTables.EraseMeaning | services/samgr/native/source/base_system_ability_manager.cpp:857-902 | erasing a listener removes exactly its key and its charge |
| ListenerTables.EraseAllMeaning | services/samgr/native/source/base_system_ability_manager.cpp:929-940 | the death of a listener removes exactly its keys and charges in all lists |
| ListenerTables.SubscribeRefines | services/samgr/native/source/multi_system_ability_manager.cpp:125-155 | subscribing through the three tables, with the flag taken back on refusal, is subscribing in the view, with the same result code |
| ListenerTables.UnSubscribeRefines | services/samgr/native/source/multi_system_ability_manager.cpp:157-197 | the same for unsubscribing one kind |
| ListenerTables.DropRefines | services/samgr/native/source/multi_system_ability_manager.cpp:282-295 | the same for a listener's death |
| ListenerTables.RefusedWasAbsent | services/samgr/native/source/multi_system_ability_manager.cpp:252-254 | a refused key had no subscription of any kind, so taking the flag back is exact |
| ListenerTables.PurgeIsIdle | services/samgr/native/source/multi_system_ability_manager.cpp:134-138 | the weak-pointer purge never drops a record, because the listener lists keep the objects alive |
| UserManagers.UserManager.SubscribeSystemAbilityInner | services/samgr/native/source/base_system_ability_manager.cpp:822-855 | lists, counts and result are those of the value-level subscribe, including the missing listener |
| UserManagers.UserManager.UnSubscribeSystemAbilityLocked | services/samgr/native/source/base_system_ability_manager.cpp:857-883 | erases the entry of one object from one list and gives its charge back |
| UserManagers.UserManager.BaseUnSubscribeSystemAbility | services/samgr/native/source/base_system_ability_manager.cpp:885-902 | refuses an illegal id or missing listener, otherwise erases the entry |
| UserManagers.UserManager.BaseDropListener | services/samgr/native/source/base_system_ability_manager.cpp:929-940 | the loop over all lists erases the dead listener from each |
| UserManagers.UserManager.ScanAndAdd | services/samgr/native/source/multi_system_ability_manager.cpp:133-154 | the editing scan of a subscription leaves what the recursive definition says |
| UserManagers.UserManager.ScanAndRemove | services/samgr/native/source/multi_system_ability_manager.cpp:169-196 | the editing scan of an unsubscription, and whether no subscription of the listener is left |
| UserManagers.UserManager.ShouldNotifySubscriber | services/samgr/native/source/multi_system_ability_manager.cpp:199-232 | a listener is told iff it is direct, or foreground while this user is the foreground user |
| UserManagers.UserManager.SubscribeSystemAbilityWithPid | services/samgr/native/source/multi_system_ability_manager.cpp:247-256 | the new view and the result are those of subscribing in the old view; tables stay valid |
| UserManagers.UserManager.UnSubscribeSystemAbility | services/samgr/native/source/multi_system_ability_manager.cpp:264-275 | the same for unsubscribing one kind |
| UserManagers.UserManager.DropListener | services/samgr/native/source/multi_system_ability_manager.cpp:277-296 | the same for a listener's death |
| UserManagers.UserManager.Destroy | services/samgr/native/source/multi_system_ability_manager.cpp:114-123 | all tables are empty and the recipients are gone |
| BaseSubscriptions.CountsAreConserved | services/samgr/native/source/base_system_ability_manager.cpp:822-940 | after any calls a process's count is the number of its entries over all abilities, never zero when present, never above 256 |
| BaseSubscriptions.NoListenerTwice | services/samgr/native/source/base_system_ability_manager.cpp:833-838 | after any calls no ability lists a listener twice |
| BaseSubscriptions.DeathLeavesNothing | services/samgr/native/source/base_system_ability_manager.cpp:929-940 | after the notice of its death a listener is listed nowhere and everybody else as before |
| UserLifecycle.LivingReplayable | services/samgr/native/source/user_lifecycle_manager.cpp:372-382 | purging dead entries keeps the global list duplicate-free and within quota |
| UserLifecycle.ReplayFits | services/samgr/native/source/multi_system_ability_manager.cpp:305-320 | each replayed entry finds its process below 256 because the list holds at most 256 entries per process |
| UserLifecycle.UserLifecycleManager.RemoveExpiredGlobalSubscriptionsLocked | services/samgr/native/source/user_lifecycle_manager.cpp:372-382 | exactly the entries of dead listeners go, and the agreement with all managers stays |
| UserLifecycle.UserLifecycleManager.RollbackSaSubscribe | services/samgr/native/source/user_lifecycle_manager.cpp:384-394 | every manager in the list gives up the foreground subscription and nothing else |
| UserLifecycle.UserLifecycleManager.RollbackSaUnsubscribe | services/samgr/native/source/user_lifecycle_manager.cpp:396-406 | every manager in the list is offered the foreground subscription again |
| UserLifecycle.UserLifecycleManager.FanOutSubscribe | services/samgr/native/source/user_lifecycle_manager.cpp:460-474 | accepted by all or by none; after a refusal every manager that did not hold the subscription is exactly as before, counts included |
| UserLifecycle.UserLifecycleManager.SubscribeSystemAbilityForAllUsers | services/samgr/native/source/user_lifecycle_manager.cpp:432-479 | all or nothing: succeeds iff the process is below its limit in the list and every manager accepts; on refusal all views and counts are as before and the list gains nothing; agreement is kept |
| UserLifecycle.UserLifecycleManager.FanOutUnsubscribe | services/samgr/native/source/user_lifecycle_manager.cpp:500-514 | every manager drops the subscription; refused only for an illegal id and then by the first one |
| UserLifecycle.UserLifecycleManager.UnSubscribeSystemAbilityForAllUsers | services/samgr/native/source/user_lifecycle_manager.cpp:481-517 | always succeeds for a listener; the entry leaves the list and every manager, direct subscriptions stay |
| UserLifecycle.UserLifecycleManager.RollbackGlobalSubscriptions | services/samgr/native/source/multi_system_ability_manager.cpp:341-357 | undoing the replayed entries leaves an empty manager |
| UserLifecycle.UserLifecycleManager.InitGlobalSubscriptions | services/samgr/native/source/multi_system_ability_manager.cpp:298-339 | the abilities of a replayable list are never refused, so the result is that of the process part; after success the new manager agrees with the list, after a refusal it is empty |
| UserLifecycle.UserLifecycleManager.HandleUserActivating | services/samgr/native/source/user_lifecycle_manager.cpp:72-119 | refused while stopping, idle when a manager exists; otherwise the new manager joins in agreement with the list, or, without profiles or after a failed initialisation, nothing but the purge has happened |
| UserLifecycle.UserLifecycleManager.DetachUser | services/samgr/native/source/user_lifecycle_manager.cpp:169-176 | the manager leaves and the others keep agreeing |
| TwoLevel.StepKeepsInv | services/samgr/native/source/user_lifecycle_manager.cpp:432-517 | every step of fan-out, rollback, replay, direct calls, deaths, stop keeps agreement, quotas and replayability |
| TwoLevel.CoherenceOverEveryRun | services/samgr/native/source/user_lifecycle_manager.cpp:432-517 | whenever the global lock is free, a live listener is in the list iff every live manager holds its foreground flag and lists it |
| TwoLevel.ReplayIsNeverRefused | services/samgr/native/source/multi_system_ability_manager.cpp:298-321 | in every run the list stays duplicate-free and within 256 per process, and no replay is refused |
| TwoLevel.UnsubscribeForAllNeverRollsBack | services/samgr/native/source/user_lifecycle_manager.cpp:500-514 | no unsubscribe-for-all is refused half-way in any run |
| TwoLevel.AllOrNothing | services/samgr/native/source/user_lifecycle_manager.cpp:432-479 | under any interleaving, at the end of a subscribe-for-all of a live listener a manager that was otherwise left alone is exactly as before if the call was refused, and has exactly subscribed if it succeeded; the list gains the entry only on success |
| TwoLevel.WhoPaysAfterRefusal | services/samgr/native/source/user_lifecycle_manager.cpp:384-394 | whatever is interleaved, after a visited manager has been taken back the key is listed iff it is directly subscribed, and paid by whoever paid before the visit or else by the refused process; so the refused process keeps a charge iff there is a direct subscription then and nobody else paid before |
| TwoLevelRuns.DirectCallMeanwhileIsMischarged | services/samgr/native/source/user_lifecycle_manager.cpp:460-479 | an instance: a direct subscription made between visit and rollback ends up charged to the process whose call was refused |
| TwoLevel.RefusalLeavesNothing | services/samgr/native/source/user_lifecycle_manager.cpp:468-472 | after a refused subscribe-for-all was taken back, whatever was interleaved with any manager, no live manager holds its foreground subscription, the list does not have it, and a manager lists the key iff it is directly subscribed |
| TwoLevel.ManagersStayValid | services/samgr/native/source/multi_system_ability_manager.cpp:247-296 | in every reachable state each manager's listener table is the union of both kinds and within all quotas |
| TwoLevel.FanOutsKeepDirectSubscriptions | services/samgr/native/source/multi_system_ability_manager.cpp:125-197 | no fan-out, rollback or replay step touches a direct subscription |
| TwoLevelCalls.SubscribeBegins | services/samgr/native/source/user_lifecycle_manager.cpp:439-463 | in every reachable state with the lock free, a subscribe-for-all sets out to visit all managers iff its key is new among the living entries and its process below 256, and otherwise only purges |
| TwoLevelCalls.UnsubscribeBegins | services/samgr/native/source/user_lifecycle_manager.cpp:488-501 | an unsubscribe-for-all sets out to visit all managers iff its key is listed |
| TwoLevelCalls.RefusedIffAManagerRefused | services/samgr/native/source/user_lifecycle_manager.cpp:462-478 | whatever is interleaved, a subscribe-for-all that comes to its end is refused iff some manager refused its visit |
| TwoLevelCalls.UnsubscribedEverywhere | services/samgr/native/source/user_lifecycle_manager.cpp:500-517 | whatever is interleaved, an unsubscribe-for-all ends with exactly its key gone from the living entries of the list, and held by no live manager while its listener lives |
| TwoLevelCalls.DroppedExactly | services/samgr/native/source/user_lifecycle_manager.cpp:502-514 | and a manager that was otherwise left alone has exactly dropped that foreground subscription |
| TwoLevelCalls.ReplayAdvances | services/samgr/native/source/multi_system_ability_manager.cpp:305-320 | in every reachable state a replay step passes over a dead listener's entry and turns any other one into a foreground subscription |
| TwoLevelCalls.ActivationEnds | services/samgr/native/source/user_lifecycle_manager.cpp:107-119 | at its end the user is live without direct subscriptions, agrees with the list, and all other managers are as before |
| TwoLevelCalls.DirectSubscribeWorks | services/samgr/native/source/multi_system_ability_manager.cpp:234-256 | in every reachable state a direct subscription adds exactly its key iff it is legal and listed or within quota, and charges its process for a new key only |
| TwoLevelCalls.DirectUnsubscribeWorks | services/samgr/native/source/multi_system_ability_manager.cpp:258-275 | a direct unsubscription removes exactly its key, which stays listed iff the foreground subscription holds it |
| TwoLevelCalls.DeathNoticeWorks | services/samgr/native/source/multi_system_ability_manager.cpp:277-296 | the notice of a death takes exactly the listener's keys and charges out of one manager |
| LifecycleProtocol.StepKeepsInv | services/samgr/native/source/user_lifecycle_manager.cpp:72-298 | every critical section keeps the invariant of tables, lock holders, contexts and managers |
| LifecycleResults.OneLiveManagerPerUser | services/samgr/native/source/user_lifecycle_manager.cpp:72-123 | at most one not yet destroyed manager per user, counting those under construction and those being torn down |
| LifecycleResults.TablesAgreeOverEveryRun | services/samgr/native/source/user_lifecycle_manager.cpp:72-211 | valid ids are the users with managers, nobody is live and stopping, a context implies STOPPING, the foreground id is invalid or a live user in SWITCHING |
| LifecycleResults.FinalisedAtMostOnce | services/samgr/native/source/user_lifecycle_manager.cpp:244-250 | each stopping context destroys its manager at most once |
| LifecycleResults.ActivationRefusedWhileStopping | services/samgr/native/source/user_lifecycle_manager.cpp:76-86 | an activation is turned away iff the user has a manager or a stopping context, which is iff it is STOPPING |
| LifecycleResults.TeardownExcludesNewSessions | services/samgr/native/source/user_lifecycle_manager.cpp:244-298 | while a completion runs its user is STOPPING, has no table entry and no other manager |
| LifecycleResults.CompletionNeverAltersALaterSession | services/samgr/native/source/user_lifecycle_manager.cpp:285-295 | the end of a completion forgets its own context only; all managers, ids and other users stay |
| LifecycleResults.NoManagerAppearsDuringActivation | services/samgr/native/source/user_lifecycle_manager.cpp:107-115 | the second look before installing a manager never finds one |
| LifecycleResults.SwitchMakesForeground | services/samgr/native/source/user_lifecycle_manager.cpp:125-154 | in every reachable state a switch makes the user the foreground user iff it is live, and changes nothing else but its state |
| LifecycleResults.StopDetaches | services/samgr/native/source/user_lifecycle_manager.cpp:156-186 | a stop takes exactly this user out of the public tables, resets the foreground id iff it was this user's, keeps the manager for the teardown and leaves every other user and every teardown alone |
| LifecycleResults.InstallMakesLive | services/samgr/native/source/user_lifecycle_manager.cpp:107-119 | an activation that gets to its end makes the user live with the manager it built |
| LifecycleResults.NoStepTouchesAnotherUser | services/samgr/native/source/user_lifecycle_manager.cpp:43-60 | no step of one user's request or teardown changes what any table says about another user |
| LifecycleResults.ForegroundChangesOnlySo | services/samgr/native/source/user_lifecycle_manager.cpp:146-180 | the foreground id changes exactly by a switch to a live user or the stop of the foreground user |
| LifecycleResults.ManagersComeAndGoOnlySo | services/samgr/native/source/user_lifecycle_manager.cpp:98-115 | a manager is born by its user's activation and destroyed only when that fails or by the teardown of its user |
| LifecycleResults.ActivationInOneGo | services/samgr/native/source/user_lifecycle_manager.cpp:72-123 | an undisturbed activation goes through and changes only its user's entries, with a manager that is new |
| LifecycleResults.FailedActivationLeavesNothing | services/samgr/native/source/user_lifecycle_manager.cpp:89-105 | an activation given up or failed restores the state |
| LifecycleResults.StopInOneGo | services/samgr/native/source/user_lifecycle_manager.cpp:156-242 | an undisturbed stop ends with its context published, its delayed task posted and everything else as before |
| LifecycleResults.TeardownInOneGo | services/samgr/native/source/user_lifecycle_manager.cpp:244-298 | an undisturbed teardown destroys exactly the manager of its context and leaves no trace of its user |
| LifecycleResults.InlineTeardownInOneGo | services/samgr/native/source/user_lifecycle_manager.cpp:205-210 | the same when the request completes the teardown itself |
| StopTasks.CounterCountsBodies | services/samgr/native/source/user_lifecycle_manager.cpp:219-237 | the active-task counter is the number of tasks inside the body |
| StopTasks.NothingRunsAfterCancel | services/samgr/native/source/user_lifecycle_manager.cpp:300-309 | once the cancellation has returned no body runs and none ever will |
| StopTasks.WakeUpIsNotMissed | services/samgr/native/source/user_lifecycle_manager.cpp:230-236 | while the canceller sleeps a task is inside, and the last one to leave wakes it |
| StopTasks.CancelReturnsWhenIdle | services/samgr/native/source/user_lifecycle_manager.cpp:304-308 | the wait ends exactly when no body is running |
| StopTasks.TasksRunUntilCancelled | services/samgr/native/source/user_lifecycle_manager.cpp:219-237 | a posted task runs its body, counted, iff no cancellation has begun, and is turned away otherwise |
| Registries.AbilityMap.AddSystemAbility | services/samgr/native/source/base_system_ability_manager.cpp:954-985 | succeeds iff the input is acceptable and fewer than 1000 abilities are registered; then the lookup finds the new object; tells whether one was covered |
| Registries.AbilityMap.RemoveSystemAbility | services/samgr/native/source/base_system_ability_manager.cpp:666-685 | succeeds iff the id is legal and registered, and removes just that entry |
| Registries.AbilityMap.RemoveObject | services/samgr/native/source/base_system_ability_manager.cpp:699-721 | a dead object loses the entry with the smallest id that holds it and no other |
| Registries.AbilityMap.RemoveDiedSystemAbility | services/samgr/native/source/base_system_ability_manager.cpp:739-757 | the entry is gone, if there was one |
| Registries.AbilityMap.CheckSystemAbility | services/samgr/native/source/base_system_ability_manager.cpp:426-443 | the registered object, or nothing for an illegal or unknown id |
| Routing.StepKeepsInv | services/samgr/native/source/system_ability_manager.cpp:386-455 | every step of user changes, routed calls and deaths keeps each registry equal to what the log of its session says |
| Routing.RegistriesArePartitioned | services/samgr/native/source/system_ability_manager.cpp:1261-1269 | the base registry never holds a multi-instance ability and user registries hold nothing else |
| Routing.WhoMayRegister | services/samgr/native/source/system_ability_manager.cpp:413-433 | in every reachable state a registration gets the base manager, or the manager of the session the log gives the caller, exactly when its kind of ability and caller agree; otherwise it changes nothing |
| Routing.WhoMayBeginToRemove | services/samgr/native/source/system_ability_manager.cpp:438-443 | in every reachable state only a caller and ability that go together get on; a base caller gets the base manager, a user looks whether the log shows it being torn down |
| Routing.WhoMayRemove | services/samgr/native/source/system_ability_manager.cpp:443-452 | a user's two looks with anything in between: seen being torn down, it gets that session unless the teardown has ended by the second look, and is then refused; otherwise it gets the session current at the second look |
| Routing.RegistrationIsFound | services/samgr/native/source/system_ability_manager.cpp:413-433 | in every reachable state a permitted, acceptable registration is found by its caller afterwards and changes no other user's lookups |
| Routing.LookupIsLastRegistration | services/samgr/native/source/system_ability_manager.cpp:386-402 | a user's lookup of a multi-instance ability is its last registration since its latest activation that was not removed |
| Routing.OtherLookups | services/samgr/native/source/system_ability_manager.cpp:1252-1259 | a base caller's lookup of a multi-instance ability is the foreground user's, and all other lookups are the base registry's last registration |
| Routing.LookupOfNamedUser | services/samgr/native/source/system_ability_manager.cpp:1290-1307 | a lookup naming a user is that user's view for base callers and nothing for others |
| Routing.SplitLookup | services/samgr/native/source/system_ability_manager.cpp:386-402 | a lookup that resolves its manager and reads it later, with anything in between, finds the last registration with the manager of the session that was current when it resolved |
| Routing.NeverAnotherUsers | services/samgr/native/source/system_ability_manager.cpp:386-433 | under any interleaving of calls with stops and activations, what a user finds under a multi-instance id was registered by that user |
| RoutingCalls.EndAddWorks | services/samgr/native/source/base_system_ability_manager.cpp:954-985 | in every reachable state a resolved registration puts its object into its manager's registry iff it is acceptable and there is room, and touches no other entry of any registry |
| RoutingCalls.EndRemoveWorks | services/samgr/native/source/base_system_ability_manager.cpp:666-685 | a resolved removal leaves its id absent from its manager's registry and touches no other entry of any registry |
| RoutingCalls.ObjectDeathWorks | services/samgr/native/source/base_system_ability_manager.cpp:707-721 | a dead object's first entry is gone afterwards and no other entry of any registry is touched |
| RoutingCalls.DiedAbilityRemovalWorks | services/samgr/native/source/base_system_ability_manager.cpp:739-757 | the entry of an ability found dead is gone and no other entry is touched |
| RoutingCalls.RemovalIsGone | services/samgr/native/source/system_ability_manager.cpp:435-455 | after a live user's removal in one go its lookup finds nothing, and no other user's and no other ability's lookup has changed |
| RoutingCalls.BaseRemovalIsGone | services/samgr/native/source/system_ability_manager.cpp:435-455 | the same for a base caller, as everybody sees it |
| RoutingCalls.ActivationOpensEmptySession | services/samgr/native/source/user_lifecycle_manager.cpp:98-119 | after an activation the user's lookups of multi-instance abilities find nothing and no other user's have changed |
| RoutingCalls.StopHidesSession | services/samgr/native/source/user_lifecycle_manager.cpp:169-183 | after a stop the user's lookups find nothing and no other user's have changed |
| RoutingCalls.TeardownEmptiesSession | services/samgr/native/source/user_lifecycle_manager.cpp:188-298 | publishing the context makes the session reachable for removals, and the end of the teardown empties exactly its registry |
| RoutingCalls.SwitchDecidesBaseLookups | services/samgr/native/source/system_ability_manager.cpp:1252-1259 | after a switch base callers see that user's multi-instance abilities, and no other lookup has changed |
| AddNotification.StepKeepsInv | services/samgr/native/source/base_system_ability_manager.cpp:473-510 | every critical section keeps each listener's notifications accounted for |
| AddNotification.ExactlyOneNotification | services/samgr/native/source/base_system_ability_manager.cpp:790-855 | for a first registration racing with subscriptions, once everything has drained every listener with a subscription among the steps of the run was sent exactly one add notification and nobody else any |
| AddNotification.ListedIffSubscribed | services/samgr/native/source/base_system_ability_manager.cpp:831-849 | in every run the listeners are exactly those with a subscription among the steps |
| AddNotification.NeverTwice | services/samgr/native/source/base_system_ability_manager.cpp:942-999 | at no time have two notifications for one listener been sent or queued |
| PendingLoads.ApplyKeepsValid | services/samgr/native/source/base_system_ability_manager.cpp:1556-1605 | every operation keeps counts, lists and tickets valid and brings no callback back |
| PendingLoads.AcceptMeaning | services/samgr/native/source/base_system_ability_manager.cpp:1569-1585 | a local callback is accepted iff it does not wait already and its process has fewer than 256 waiting; only a full process is refused |
| PendingLoads.CountsAreConserved | services/samgr/native/source/base_system_ability_manager.cpp:1860-1873 | after any operations the count of every process except 0 is the number of its waiting callbacks, all local, at most 256 |
| PendingLoads.AtMostOneOutcome | services/samgr/native/source/base_system_ability_manager.cpp:1391-1411 | no callback is told two outcomes and none that waits was told any |
| PendingLoads.LeavesForGood | services/samgr/native/source/base_system_ability_manager.cpp:1297-1346 | a callback that has left the table never waits again |
| PendingLoads.WhoLeavesIsTold | services/samgr/native/source/base_system_ability_manager.cpp:1750-1790 | a callback leaves by success or failure of its own ability and is told just that; by a timeout of its object, told iff it is the first entry of that object and otherwise the same proxy with the same pid; or by its death, told nothing |
| PendingLoads.TheDeadLeave | services/samgr/native/source/base_system_ability_manager.cpp:1875-1924 | the death of an object takes exactly its first entry out of every list, so every charged callback of it leaves with its charge, and everybody else stays |
| PendingLoads.TimeOutTakesFirst | services/samgr/native/source/base_system_ability_manager.cpp:1314-1345 | a timeout always takes out the first entry of its object with its equals by proxy and pid, tells just that one, and touches nobody else |
| LoadTables.LoadTable.DoLoadSystemAbility | services/samgr/native/source/base_system_ability_manager.cpp:1556-1605 | told at once when the ability is there; otherwise the table and the result are those of accepting, finding or refusing the callback |
| LoadTables.LoadTable.DoLoadSystemAbilityFromRpc | services/samgr/native/source/system_ability_manager.cpp:785-801 | the callback of another device is appended uncharged, or told at once |
| LoadTables.LoadTable.RemoveStartingAbilityCallbackLocked | services/samgr/native/source/base_system_ability_manager.cpp:1860-1873 | one charge is given back and an exhausted count disappears |
| LoadTables.LoadTable.NotifySystemAbilityLoaded | services/samgr/native/source/base_system_ability_manager.cpp:1391-1411 | everybody on every list of the ability is told success and leaves, and nobody else |
| LoadTables.LoadTable.OnStartSystemAbilityFail | services/samgr/native/source/base_system_ability_manager.cpp:1750-1790 | everybody on every list of the ability is told the error and leaves, unless the report is not accepted |
| LoadTables.LoadTable.CleanCallbackForLoadFailed | services/samgr/native/source/base_system_ability_manager.cpp:1297-1346 | the first entry of the object that timed out is told, it and its equals by proxy and pid leave the list; empty lists and abilities are dropped |
| LoadTables.LoadTable.RemoveStartingAbilityCallback | services/samgr/native/source/base_system_ability_manager.cpp:1891-1905 | a dead callback leaves one list, once, with its charge |
| LoadTables.LoadTable.RemoveStartingAbilityCallbackForDevice | services/samgr/native/source/base_system_ability_manager.cpp:1875-1889 | the same for all devices of one ability |
| LoadTables.LoadTable.OnAbilityCallbackDied | services/samgr/native/source/base_system_ability_manager.cpp:1907-1924 | the same for every list of the table |
| DynamicCaches.DynamicCache.CanUseCache | interfaces/innerkits/dynamic_cache/src/dynamic_cache.cpp:57-62 | usable iff id, stored and read waterline agree, something was published, and the object is there and alive |
| DynamicCaches.StoredIsUsable | interfaces/innerkits/dynamic_cache/src/dynamic_cache.cpp:43-53 | what was stored is used exactly for the same ability and waterline while the object lives, and not after clearing |
| DynamicCaches.DynamicCache.ClearCache | interfaces/innerkits/dynamic_cache/include/dynamic_cache.h:35-43 | id and object are forgotten, the stored waterline is not |
| DynamicCaches.DynamicCache.QueryResult | interfaces/innerkits/dynamic_cache/src/dynamic_cache.cpp:25-55 | a usable cache answers and stays; otherwise the server's answer is returned and stored under the waterline read first, or the cache is cleared |
| ClientCache.StepKeepsInv | frameworks/native/source/system_ability_manager_proxy.cpp:142-149 | every step of client threads and server keeps every held answer tied to the moment it was read |
| ClientCache.HitIsNotOlderThanTheWaterline | interfaces/innerkits/dynamic_cache/src/dynamic_cache.cpp:25-38 | under any interleaving a hit returns what the table held no earlier than the last invalidation published before the query began |
| ClientCache.QuietHitIsCurrent | services/samgr/native/source/base_system_ability_manager.cpp:975-983 | a query begun with no invalidation outstanding gets what the table held between its beginning and now |
| ClientCache.QueryRecordsItsBeginning | services/samgr/native/source/system_ability_manager_util.cpp:266-279 | the waterline a query reads is the last one published at that moment, and publications only grow |
| CacheQueries.TableIsWhatWasWritten | services/samgr/native/source/base_system_ability_manager.cpp:967-985 | in every run the table holds for each ability what the steps last registered or assigned and have not removed |
| CacheQueries.InvalidationsAreConserved | services/samgr/native/source/system_ability_manager_util.cpp:266-279 | in every run removals and replacements equal attempted publications plus those posted and to be posted, and the waterline counts the successful ones |
| CacheQueries.MissAsksAndStores | frameworks/native/source/system_ability_manager_proxy.cpp:142-149 | a query that misses clears, gets what the table holds and stores it under the waterline read first |
| CacheQueries.NextQueryHits | interfaces/innerkits/dynamic_cache/src/dynamic_cache.cpp:30-37 | the next query of the same ability hits and returns the stored object while nothing is published and the object lives |
| OnDemandEvents.RoundTrip | frameworks/native/source/system_ability_on_demand_event.cpp:21-54 | parsing an encoding gives the same events and leaves the bytes behind it; the size guards let every genuine encoding through |
| OnDemandEvents.RoundTripIff | frameworks/native/source/system_ability_on_demand_event.cpp:24-28 | with strings that fit, the round trip holds iff all list sizes are int32 values |
| OnDemandEvents.OversizedListIsLost | frameworks/native/source/system_ability_on_demand_event.cpp:24-28 | a list of 2^31 events has its size written as a negative number and does not come back |
| OnDemandEvents.EncodingIsPrefixFree | frameworks/native/source/system_ability_on_demand_event.cpp:21-54 | no encoding is a prefix of another, so the bytes determine the events |
| OnDemandEvents.SizeRoundTrip | frameworks/native/source/system_ability_on_demand_event.cpp:99-102 | the guard against sizes larger than the readable bytes never rejects a genuine size |
| OnDemandEvents.BadSizeIsRefused | frameworks/native/source/system_ability_on_demand_event.cpp:99-102 | a list size that is negative or larger than the readable bytes is refused |
| OnDemandEvents.BadConditionSizeIsRefused | frameworks/native/source/system_ability_on_demand_event.cpp:118-121 | so is such a number of conditions |
| OnDemandEvents.EventRoundTrip | frameworks/native/source/system_ability_on_demand_event.cpp:103-135 | the same round trip for one event with its conditions |
| EventParcels.WriteOnDemandEventsToParcel | frameworks/native/source/system_ability_on_demand_event.cpp:21-54 | succeeds iff strings and encoding fit the parcel, and then appends exactly the encoding |
| EventParcels.WriteOnDemandEventToParcel | frameworks/native/source/system_ability_on_demand_event.cpp:56-71 | the same for the head of an event |
| EventParcels.WriteOnDemandConditionToParcel | frameworks/native/source/system_ability_on_demand_event.cpp:73-89 | the same for a condition |
| EventParcels.ReadOnDemandEventsFromParcel | frameworks/native/source/system_ability_on_demand_event.cpp:91-137 | succeeds iff the unread bytes parse, appends the parsed events to the given ones and stops right behind them |
| EventParcels.ReadOnDemandConditionFromParcel | frameworks/native/source/system_ability_on_demand_event.cpp:158-176 | the same for one condition |
| EventParcels.WriteThenRead | frameworks/native/source/system_ability_on_demand_event.cpp:21-137 | writing a list, other data behind it, and reading back gives the list and leaves the other data |
| EventParcels.ConvertToOnDemandEvent | services/samgr/native/source/system_ability_manager_util.cpp:189-203 | the loop appends the converted conditions to those of the target and copies the other fields |
| EventParcels.ConvertToSystemAbilityOnDemandEvent | services/samgr/native/source/system_ability_manager_util.cpp:205-220 | the same in the other direction |
| EventParcels.ConversionRoundTrip | services/samgr/native/source/system_ability_manager_util.cpp:189-220 | to the internal form and back is the identity for fresh targets |
| EventParcels.ConversionBackRoundTrip | services/samgr/native/source/system_ability_manager_util.cpp:189-220 | out of the internal form and back is the identity iff the event carries nothing extra |
| LookupStatistics.UnpackInvertsPack | services/samgr/native/source/system_ability_manager_util.cpp:222-227 | decoding a packed key gives the uid and the ability back |
| LookupStatistics.PackIsInjective | services/samgr/native/source/system_ability_manager_util.cpp:222-227 | different pairs have different keys |
| LookupStatistics.FrequencyTable.UpdateSaFreMap | services/samgr/native/source/base_system_ability_manager.cpp:1959-1973 | one counter grows by one up to the cap; a negative uid changes nothing and gives -1 |
| LookupStatistics.FrequencyTable.ReportGetSAPeriodically | services/samgr/native/source/system_ability_manager.cpp:1168-1178 | one line per counter, decoded, and the counters start afresh |
| LookupStatistics.CountersAreExact | services/samgr/native/source/base_system_ability_manager.cpp:1959-1973 | after any lookups a counter is min(number of lookups, cap) |
| LookupStatistics.ReportIsExact | services/samgr/native/source/system_ability_manager.cpp:1168-1178 | the report has exactly one line per looked-up pair, with min(number of lookups, cap) |
| LookupStatistics.ReportsOnlyLookups | services/samgr/native/source/system_ability_manager.cpp:1168-1178 | every line of the report is such a pair |
| IdleProcesses.GetLruIdleSystemAbilityProc | services/samgr/native/source/base_system_ability_manager.cpp:1718-1748 | ascending by idle time; exactly one entry per unloadable process with an idle ability, with the largest idle time of its abilities |
| IdleProcesses.CollectLatest | services/samgr/native/source/base_system_ability_manager.cpp:1724-1737 | the table holds the latest idle ability of every process that has one |
| IdleProcesses.SelectUnloadable | services/samgr/native/source/base_system_ability_manager.cpp:1738-1743 | exactly the unloadable processes of the table, once each |
| IdleProcesses.Sort | services/samgr/native/source/base_system_ability_manager.cpp:1744-1746 | a sorted permutation |
| ConcurrentMaps.ConcurrentMap.FirstInsert | services/samgr/native/include/concurrent_map.h:66-77 | replacing an entry by erasing and inserting is one assignment, and the result tells whether the map was empty before |
| ConcurrentMaps.ConcurrentMap.IsEmpty | services/samgr/native/include/concurrent_map.h:53-57 | whether the map is empty |
| ConcurrentMaps.FirstAgain | services/samgr/native/include/concurrent_map.h:66-110 | only the insert that finds the map empty is told so, and erasing an entry makes the next insert the first again iff it was the only one |
| TimerService.NeverUnattended | services/samgr/native/source/samgr_time_handler.cpp:56-69 | under any interleaving of posters and threads, while a task is stored a service thread runs or is about to be started |
| TimerService.StoredTasksHaveTheirTimers | services/samgr/native/source/samgr_time_handler.cpp:71-91 | in every run a stored task has its open timer, unread or in the hands of a thread that is about to call or has called it |
| TimerService.NeverAllStuckForGood | services/samgr/native/source/samgr_time_handler.cpp:71-91 | in every run, while a task is stored all threads are in reads that cannot return only if one of them reads a timer that was posted with delay 0 |
| TimerService.PositiveDelaysAreServed | services/samgr/native/source/samgr_time_handler.cpp:139-145 | with positive delays only, while a task is stored some thread can go on or is about to be started |
| TimerRuns.DisarmedCanStickEveryThread | services/samgr/native/source/samgr_time_handler.cpp:139-145 | a run with delay 0 after which tasks are stored and every thread is stuck for good |
| TimerService.CallFailsIffTooEarly | services/samgr/native/source/samgr_time_handler.cpp:82-86 | a thread calls an empty function exactly when the poster has armed the timer and not stored its task |
| TimerService.DependableIff | services/samgr/native/source/samgr_time_handler.cpp:115-155 | the service goes on, with every stored task provided for, exactly as long as no task was called before its poster stored it |
| TimerService.StuckReadHasAWitness | services/samgr/native/source/samgr_time_handler.cpp:76-90 | a thread that is overtaken in its own read is so while another thread has the same timer in its hands |
| TimerCalls.CalledOnceAsPosted | services/samgr/native/source/samgr_time_handler.cpp:71-91 | in every run a timer's task is called at most once, and it is the task posted with that timer |
| TimerCalls.NoPostIsLost | services/samgr/native/source/samgr_time_handler.cpp:115-155 | in every run a posted task has been called, or its timer is open with the task stored or about to be |
| TimerCalls.PostInOneGo | services/samgr/native/source/samgr_time_handler.cpp:115-155 | a post arms its timer, stores its task and starts a thread iff the map was empty |
| TimerCalls.ServeInOneGo | services/samgr/native/source/samgr_time_handler.cpp:81-89 | a thread that has read a timer calls its task, erases it and closes the timer |
| TimerCalls.ReadTakesExpired | services/samgr/native/source/samgr_time_handler.cpp:76-81 | reading an expired timer takes it, reading a closed one goes on to the next |
| TimerRuns.EarlyExpiryFails | services/samgr/native/source/samgr_time_handler.cpp:145-153 | a run in which a timer expires between being armed and being stored, and the process fails with a task stored |
| TimerService.WaitsIffReused | services/samgr/native/source/samgr_time_handler.cpp:76-80 | in every run a read makes a thread wait for a timer that has not expired iff the number was given to such a new timer after the thread's last poll |
| TimerRuns.ReuseCanDelay | services/samgr/native/source/samgr_time_handler.cpp:71-91 | an instance: a stored task's timer has expired and every thread waits in the read of a timer that has yet to expire |

## Left out

- UserLifecycle.UserLifecycleManager.HandleUserActivating: the outcome of the process subscriptions is a parameter, because they go through the state scheduler; the second look for a manager is in `LifecycleProtocol`, and never finds one.
- TwoLevel.AllOrNothing: is about managers that no direct call and no death notice worked on during the call; `WhoPaysAfterRefusal` and `RefusalLeavesNothing` state what holds for the others.
- TwoLevel.CoherenceOverEveryRun: a call on one user manager is one step, as if its two locks were one.
- Routing.LookupIsLastRegistration: an add that resolved its manager before the user was stopped goes to the old session, so "since its latest activation" counts the registrations with the current session's manager.
- ClientCache.QuietHitIsCurrent: a failed publication counts as outstanding for ever.
- Process subscriptions, the state scheduler, the collect manager and the queues behind `PostTask`; a queue appears as a set of tasks that run in any order.
- IPC stubs and proxies, permission checks, death-recipient registration, remote devices beyond the device name, service control, parameters, traces, the dumper, profile parsing.
- The order of remove and add notifications when an ability is removed and added again at the same time, and notifications sent by user managers beyond the decision whether a listener is told.
- Liveness of load callbacks: the timeout task returns silently when the ability is present.
- The order of the idle list merged over several users, which is appended without sorting.
- Client cache for on-demand and multi-instance abilities, and the in-process shortcut for local abilities.
- The iteration order of maps: loops visit the entries in some order, and the results hold for every order. The user managers are a sequence in `UserLifecycle` for the same reason.
- Update in place of the user-state tables: the lifecycle protocol is a step system over values, since its results are about interleavings.
- Subscription calls routed by the caller's user: the id check they make before subscribing for all users is a precondition of `SubscribeSystemAbilityForAllUsers`.
- Expired and dead objects are parameters (`gone`, `dead`), and so are the presence of an ability, profiles, idle times and calling processes.
- Parcel internals: values are 32-bit little endian, strings a length and their bytes without padding, and a write fails when the capacity is exceeded.
- The shift and or of the 64-bit key are written as multiplication and addition, which is the same for a 32-bit lower half.
