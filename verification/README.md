# Verified model of the Kong agents

The discovery agent turns Marketplace requests into edits of Kong's configuration and
publishes Kong's routes as APIs; the traceability agent forwards traffic logs. This project
models the parts of both where state, ordering and partial failure matter, and proves what
they keep.

| file | models |
|---|---|
| `Sequences.dfy` | sequences without repetition, and filtered ones |
| `KongStore.dfy` | Kong's stores per workspace, the outcome of admin calls, plugin edits, deleting a consumer |
| `PluginSearch.dfy` | `getSpecificPlugin`, whose match flags outlive one plugin |
| `RouteEdits.dfy` | the edits for granting, revoking, limiting; what one edit does |
| `KongClients.dfy` | the Kong client's methods, with the allow list edited in place |
| `AccessRequests.dfy` | `AccessProvisioner`: the calls of a request in order, with early exits |
| `RouteAccess.dfy` | what the client's route operations do to allow lists whatever calls fail; repeat, retry, undo |
| `RouteQuotas.dfy` | what they do to every limit in force, whatever its scope |
| `RouteOutcomes.dfy` | how they end: every error, exactly when |
| `RequestAnswers.dfy` | the status sent back for every request and removal of access and of an application |
| `AccessRuns.dfy` | whole runs: allow lists as sets under insertion and deletion |
| `QuotaRuns.dfy` | whole runs: quotas are written once; when the limits in force are those asked for |
| `TangledQuotas.dfy` | runs of successful requests that do not follow: the condition on requests is needed |
| `RequestRetries.dfy` | whole access requests made again, with and without their record |
| `Applications.dfy` | `AppProvisioner`: removing an application's consumers in any order |
| `ConsumerBooks.dfy`, `MissingConsumers.dfy` | recorded consumers over whole runs; when one is missing |
| `Names.dfy`, `PublishedCredentials.dfy`, `Credentials.dfy`, `CredentialAnswers.dfy` | credential definitions, their names, and the life of a credential; whose it is, and every answer |
| `EffectivePlugins.dfy` | `GetEffectivePlugins` as an argmax |
| `Endpoints.dfy` | `GetEndpoints` as an ordered product, and the configuration behind it |
| `Discovery.dfy`, `SharedApis.dfy` | `DiscoverAPIs`, whose workers share a cache; when an API may be attempted twice |
| `Shutdown.dfy` | the two wait groups of the traceability agent |

## How it is built

State that the source updates is held by classes (`KongClient`, `AclConfig`,
`AccessProvisioner`, `AppProvisioner`, `CredentialProvisioner`, `Agent`). Each method is
proved to be a function on values, or to reach a stated result, and the lemmas are about
those functions. A `Net` says which calls fail and which IDs creations get, indexed by the
number of calls made so far; lemmas hold for every `Net`, hence for every pattern of failure.

Findings where the code does less than its purpose are stated with the exact condition:

- The flags of `getSpecificPlugin` are not reset, so it returns the plugin at which the last
  of three criteria is first met. A grant or a removal acts on the plugin found, which may be
  the global one: `GrantReaches` and `RevokeReaches` say which lists change, of routes and of
  every scope, on any store (`GrantMayMissTheRoute` is an instance). A quota can be taken as
  placed although nothing limits the consumer on that route (`QuotaInForceIff`,
  `ThirdQuotaIsLost`). A removal can lift a limit it is not about (`DisablingReaches`): the
  consumer's on another route (`RemovalEndsAnotherQuota`, and `AnotherQuotaIsEnded` for a run
  from an empty workspace), everybody's on the route (`DisablingMayLiftARoutesLimit`), or the
  consumer's on a service (`DisablingMayLiftAServicesLimit`).
- A request for a quota that exists with another limit succeeds and keeps the old limit
  (`OldLimitIsKept`; `QuotaAsAskedIff` for the exact condition). With the acl check disabled
  any request that settles on a consumer succeeds, and places no quota (`RequestAnsweredAs`,
  `StopsBeforePlugins`).
- Removing a route's last consumer drops the route's plugin, so the same removal made again is
  answered with an error (`LastRemovalAgainFails`).
- When a removal has taken the access away and then fails to disable the quota, made again it
  reports success and the quota stays in force (`FailedDisablingIsFinal`,
  `FailedDisablingHappens`).
- So over a run the limits in force, with their values, are at every point those that its
  successful requests and removals make if and only if each step is harmless when it is made
  (`QuotasFollowIff`, with `HarmlessEvent` as the condition on the step). For the requests
  this means: with the acl check on and the acl plugins in order, it suffices that no
  requested pair shares its route with one requested pair and its consumer with another, that
  each pair always asks for the same quota, that who has a quota in force may use the route,
  and that no removal of such a pair fails half way, whatever other calls fail
  (`UntangledQuotasFollow`). For pairs that are tangled in that way some run of successful
  requests does not follow (`TangledMayNotFollow`).
- A grant that finds the consumer listed on a disabled plugin leaves it disabled
  (`GrantIsEffectiveIff`).
- A renewal acts on the default workspace whatever workspace it is for (`UpdateReplacesIff`);
  for a consumer known only in its own workspace it always fails (`ProvisionThenUpdateFails`,
  `BlueRenewalFails`).
- Deleting a consumer whose lookup fails reports success (`RemovedIffLookedUp`), and so does
  a request whose consumer did not join its group (`GroupJoinedIff`) or was not recorded
  (`RecordKeptIff`). The lookup does not search custom IDs, so a consumer whose record is lost
  is not found again: the next request makes a second one or, if Kong refuses that, fails
  (`LostRecordIsNotFound`). So a request made again then either grants access to two consumers
  (`LostRecordDoesNotConverge`) or, if Kong lets no second consumer have the name, fails
  however often it is made (`LostRecordBlocks`), while it converges when the record stands
  (`RepeatedRequestWritesNothing`, `RetriedRequestConverges`).
- Removing an application that has consumers in two workspaces may delete one and fail on the
  other. Central then still records the consumer that is gone, and a later request that
  succeeds grants access to an ID without a consumer (`HalfRemovedIsStillGranted`).
- In one poll an API is attempted at most once under every schedule if and only if no two
  workers have it (`AttemptedOnceIff`). `DiscoverAPIs` starts workers for a workspace as often
  as it is configured, so a workspace configured twice may have its APIs published twice
  (`RepeatedWorkspaceMayPublishTwice`).
- If the shutdown handler signals before `Run` adds itself, the wait group panics
  (`PanicsIff`).

The repository's own README says that the consumer is created when the application is
registered (`README.md:52`); in the code it is created by the first access request, and the
model follows the code.

## Assumptions about code not in the repository

- A call to Kong's admin API either gets through or has no effect. Creating a plugin for a
  route adds it at the end, enabled, with an unused ID; updating and deleting act by ID.
  Refusals that Kong may add (uniqueness, unknown route) are among the failing calls.
- Kong finds a consumer by ID, or failing that by username, and deletes a credential of that
  consumer by ID; deleting one that is not there succeeds, while an unknown consumer is an error.
  Deleting a consumer deletes its plugins, groups and credentials.
- The SDK's names: credential types `api-key`, `http-basic`, `oauth-secret`, the access
  request definitions of the same names, intervals `daily`, `weekly`, `monthly`, `annually`.
- Central drops an application once its removal has succeeded.
- The checksum of an API is injective; storing it in the cache does not fail.

## Model

| member | source | states |
|---|---|---|
| PluginSearch.GetSpecificPlugin | pkg/discovery/kong/provisioning.go:356-381 | the loop with its three persistent flags returns the last of three independent first matches |
| PluginSearch.SelectIsFirstJointMatch | pkg/discovery/kong/provisioning.go:357-377 | the result is the first same-name plugin at which those seen so far jointly match, and nothing exactly when there is none |
| PluginSearch.SelectNeverPassesExact | pkg/discovery/kong/provisioning.go:356-381 | if an exact match exists the search finds something, no later than it; so "not found" means there is none |
| PluginSearch.SelectIsExactSearchIff | pkg/discovery/kong/provisioning.go:356-381 | the search equals the exact search if and only if the listing never meets the three criteria jointly before a plugin meets all three itself |
| PluginSearch.FoundByName | pkg/discovery/kong/provisioning.go:358-361 | the search finds what it would find if plugins of other names were not listed |
| PluginSearch.DecidedSearchIsExact | pkg/discovery/kong/provisioning.go:356-381 | when one criterion implies the other two among same-name plugins, the first exact match is returned |
| RouteEdits.GrantReaches | pkg/discovery/kong/provisioning.go:135-170 | on any store with unique IDs, for every route and every scope: a carried-out grant adds the consumer to exactly the allow lists its search hits, its own route's when nothing is found, else those of the plugin found |
| RouteEdits.RevokeReaches | pkg/discovery/kong/provisioning.go:181-200 | likewise a carried-out removal takes the consumer off a route's or a scope's list if and only if the found plugin is there and nothing else there lists the consumer |
| RouteEdits.GrantMayMissTheRoute | pkg/discovery/kong/provisioning.go:136-162 | with a plugin on both route and service listed before a global one, the grant edits the global allow list |
| RouteEdits.GrantIsEffectiveIff | pkg/discovery/kong/provisioning.go:152-169 | after a grant the selected plugin lists the consumer and is enabled, unless the consumer was already listed on a disabled plugin |
| RouteEdits.GrantKeepsSettings | pkg/discovery/kong/provisioning.go:136-170 | a grant appends one plugin, or one group to one allow list, or nothing; every other plugin and setting stays in place |
| RouteEdits.RevokeKeepsSettings | pkg/discovery/kong/provisioning.go:187-200 | a removal takes one group out of one allow list, or drops a plugin that listed only the consumer, or does nothing; every other plugin and setting stays in place |
| RouteEdits.WithoutTakesOne | pkg/discovery/kong/provisioning.go:195 | exactly one occurrence of the group is taken out, the first, and the others stay in order |
| RouteEdits.OthersAllowNobody | pkg/discovery/kong/provisioning.go:258-275 | a plugin whose settings are not those of an acl is taken to allow nobody |
| RouteEdits.CreationNeverDuplicates | pkg/discovery/kong/provisioning.go:136-150 | on any listing, grants and quotas never create a plugin whose name, route, service and consumer are taken |
| RouteEdits.KeysStayUnique | pkg/discovery/kong/provisioning.go:127-256 | so no grant or quota that Kong carries out makes two plugins share name, route, service and consumer |
| RouteEdits.PlacingReaches | pkg/discovery/kong/provisioning.go:228-256 | for every scope and configuration, with or without route, service and consumer, on a store with unique IDs: a carried-out quota request puts in force exactly the limit of the plugin found, with that plugin's values, or its own when none is found |
| RouteEdits.QuotaInForceIff | pkg/discovery/kong/provisioning.go:228-256 | afterwards some limit of its own scope is in force if and only if one already was, or the search found nothing or the exact plugin |
| RouteEdits.QuotaAsAskedIff | pkg/discovery/kong/provisioning.go:228-256 | and the limit with the requested window and value is if and only if that already was, or the search found nothing or the exact plugin with just that configuration |
| RouteEdits.OldLimitIsKept | pkg/discovery/kong/provisioning.go:230-245 | a carried-out request for another limit of a quota that exists leaves the plugin with its old limit, enabled |
| RouteEdits.QuotaLandsWhenDecided | pkg/discovery/kong/provisioning.go:228-256 | it does when every rate-limiting plugin of the route, or every one of the consumer, is exactly theirs |
| RouteEdits.DisablingReaches | pkg/discovery/kong/provisioning.go:202-215 | for every scope and configuration, when no two rate-limiting plugins share a scope: disabling ends exactly the limit of the plugin found, which may be another's, a service's or everybody's |
| RouteEdits.DisablingMayLiftARoutesLimit | pkg/discovery/kong/provisioning.go:202-215 | a listing on which a removal switches off the limit that holds for everybody on the route |
| RouteEdits.DisablingMayLiftAServicesLimit | pkg/discovery/kong/provisioning.go:202-215 | a listing on which a removal switches off the consumer's limit on a service |
| RouteEdits.DisablingEndsQuota | pkg/discovery/kong/provisioning.go:202-215 | when the search is decided it ends its own quota and no other limit of any scope |
| RouteEdits.GrantThenRevokeIff | pkg/discovery/kong/provisioning.go:187-200 | grant then revoke restores the acl plugins in full if and only if none was found, or an enabled one with a non-empty list lacking the consumer |
| KongClients.AclConfig.CheckAccess | pkg/discovery/kong/provisioning.go:258-275 | decodes the plugin's settings and finds the first index of the group, or -1 when it is not listed |
| KongClients.AclConfig.Append | pkg/discovery/kong/provisioning.go:161 | the allow list gets the group at its end, the other settings stay |
| KongClients.AclConfig.DeleteAt | pkg/discovery/kong/provisioning.go:195 | shifting in the same array removes exactly the element at the index |
| KongClients.KongClient.AddRouteACL | pkg/discovery/kong/provisioning.go:127-170 | new state and error are those of `Grant`, for every pattern of failing calls |
| KongClients.KongClient.RevokeOn | pkg/discovery/kong/provisioning.go:187-200 | the in-place deletion writes back the list without the first occurrence, or deletes the plugin |
| KongClients.KongClient.DisableQuota | pkg/discovery/kong/provisioning.go:202-215 | the quota plugin is chosen from the listing made before the removal |
| KongClients.KongClient.RemoveRouteACL | pkg/discovery/kong/provisioning.go:172-218 | new state and error are those of `Revoke`, including removals whose later disabling fails and those that find no plugin; `RemovalEndsAs` says when each error comes |
| KongClients.KongClient.UpdateOrDeleteACL | pkg/discovery/kong/provisioning.go:296-320 | an empty list deletes the plugin, any other list is written with the plugin enabled |
| KongClients.KongClient.AddQuota | pkg/discovery/kong/provisioning.go:220-256 | new state and error are those of `PlaceQuota` |
| KongClients.KongClient.CreateConsumer | pkg/discovery/kong/provisioning.go:20-40 | the consumer found by the application's ID, or a new one; a failed lookup counts as not found |
| KongClients.KongClient.AddConsumerACL | pkg/discovery/kong/provisioning.go:42-61 | the consumer joins the group of its own ID when both calls get through |
| KongClients.KongClient.DeleteConsumer | pkg/discovery/kong/provisioning.go:63-74 | the consumer found is removed with its plugins, groups and credentials; a failed lookup is success without effect |
| AccessRequests.AccessProvisioner.constructor | pkg/discovery/subscription/access/access.go:60-89 | takes the recorded consumer ID from the application's details under the workspace's key |
| AccessRequests.AccessProvisioner.CreateConsumer | pkg/discovery/subscription/access/access.go:212-223 | joining the group may fail without failing the creation |
| AccessRequests.AccessProvisioner.UpdateManagedAppDetails | pkg/discovery/subscription/access/access.go:225-232 | one detail is added to those fetched; a failing write loses it silently |
| AccessRequests.AccessProvisioner.ProvisionApp | pkg/discovery/subscription/access/access.go:184-201 | looks the application up, settles on a consumer, records it |
| AccessRequests.AccessProvisioner.Provision | pkg/discovery/subscription/access/access.go:91-148 | new world and status are those of `ProvisionedFrom`, check by check and call by call; `RequestAnsweredAs` says when each status comes |
| AccessRequests.AccessProvisioner.Deprovision | pkg/discovery/subscription/access/access.go:150-182 | new world and status are those of `DeprovisionedFrom` |
| RouteAccess.GrantReachesOn | pkg/discovery/kong/provisioning.go:127-170 | with any call failing, on any workspace with unique IDs: exactly the lists a successful grant hits gain the consumer, in no other workspace |
| RouteAccess.RevokeReachesOn | pkg/discovery/kong/provisioning.go:172-218 | likewise exactly the lists hit by a removal whose write got through lose it |
| RouteAccess.GrantOnAllowed | pkg/discovery/kong/provisioning.go:127-170 | with the workspace's acl plugins in order and any call failing, a grant inserts if it ends well and else changes no allow list in any workspace, and keeps the order |
| RouteAccess.RevokeOnAllowed | pkg/discovery/kong/provisioning.go:172-218 | likewise a removal deletes once its write got through, even if disabling the quota fails afterwards |
| RouteAccess.QuotaWritesOnce | pkg/discovery/kong/provisioning.go:220-256 | whichever plugin is selected, a quota request changes only its enabled flag; any other plugin it leaves is new and as asked |
| RouteAccess.GrantingTwiceChangesNothing | pkg/discovery/subscription/access/access.go:127-147 | repeating a successful grant and quota writes nothing, whatever calls fail, with no hypothesis on the search |
| RouteAccess.RetryConverges | pkg/discovery/subscription/access/access.go:127-147 | the two calls, cut short between grant and quota and then retried, reach the plugins of one successful attempt from the same plugins, up to fresh IDs |
| RequestRetries.RepeatedRequestWritesNothing | pkg/discovery/subscription/access/access.go:91-148 | a whole request that succeeded, its consumer recorded, writes nothing when made again, whatever calls fail |
| RequestRetries.RetriedRequestConverges | pkg/discovery/subscription/access/access.go:91-148 | a whole request that failed on its quota, its consumer recorded, and was made again reaches the plugins of one successful request for the same consumer, up to fresh IDs |
| RequestRetries.LostRecordDoesNotConverge | pkg/discovery/subscription/access/access.go:104-110 | without the record a request made again that succeeds, Kong having accepted a second consumer, settles on another consumer, and both are granted access |
| RequestRetries.LostRecordBlocks | pkg/discovery/kong/provisioning.go:20-40 | if instead Kong refuses a consumer whose username or custom ID is taken, every later request of that application in that workspace fails, whatever other calls do |
| RouteAccess.GrantAccessDelivers | pkg/discovery/subscription/access/access.go:127-147 | with the acl plugins in order and the search decided, success means the consumer is on the route's allow list and limited there; the limit is the one asked for if and only if that was in force, or the plugin found, if any, has just that configuration |
| RouteAccess.GrantThenRevokeRestoresIff | pkg/discovery/kong/provisioning.go:127-218 | the round trip of a grant and a removal, calls included, with its exact condition |
| RouteOutcomes.GrantSucceedsIff | pkg/discovery/kong/provisioning.go:127-170 | a grant succeeds if and only if the listing is answered and the plugin found lists the consumer or the write gets through |
| RouteOutcomes.QuotaSucceedsIff | pkg/discovery/kong/provisioning.go:220-256 | a quota request does if and only if the listing is answered and the plugin found is enabled or the write gets through |
| RouteOutcomes.RemovalEndsAs | pkg/discovery/kong/provisioning.go:172-218 | when a removal ends in each error: it finds no plugin if and only if some criterion of the search fits no acl plugin; the write or the disabling fails if and only if the found plugin lists the consumer and that call fails |
| RouteOutcomes.RemovalSucceedsIff | pkg/discovery/kong/provisioning.go:172-218 | with the acl plugins in order: no plugin is found if and only if the route has none; a removal succeeds if and only if it has one and the writes needed for a consumer that is allowed get through |
| RouteOutcomes.LastRemovalIsMissing | pkg/discovery/kong/provisioning.go:181-200 | the removal of the last consumer drops the plugin, so the same removal again is an error |
| RouteOutcomes.FindsIdThenName | pkg/discovery/kong/provisioning.go:23 | a lookup finds the consumer with that ID, or if there is none one with that username |
| RouteOutcomes.ConsumerMadeIff | pkg/discovery/kong/provisioning.go:20-40 | there is a consumer afterwards if and only if the lookup gave one or the creation got through; a new one has the application's name and ID |
| RouteOutcomes.ConsumerCallsEndAs | pkg/discovery/kong/provisioning.go:42-74 | without a consumer joining a group is an error and deleting is a success; else each fails if and only if its call does |
| RouteOutcomes.WindowFollowsName | pkg/discovery/kong/provisioning.go:339-354 | the window follows the interval's name in any mix of cases; any other name has none |
| RequestAnswers.SettlesAs | pkg/discovery/subscription/access/access.go:184-201 | a recorded consumer is taken without a call; else the application must be fetched and a consumer found under its ID or made, and which failure is reported |
| RequestAnswers.AccessEndsAs | pkg/discovery/subscription/access/access.go:127-147 | access fails if and only if the grant does, limits if and only if only the quota does |
| RequestAnswers.RequestAnsweredAs | pkg/discovery/subscription/access/access.go:91-148 | when each status is sent; with the acl check disabled a request succeeds if and only if it settled on a consumer, else if and only if also the quota is not weekly and both calls end well |
| RequestAnswers.RequestSucceedsIff | pkg/discovery/subscription/access/access.go:91-148 | when no call fails, a request succeeds if and only if it names a workspace and a route, Central knows the application, and the quota is not weekly or the check is disabled |
| RequestAnswers.RemovalAnsweredAs | pkg/discovery/subscription/access/access.go:150-182 | when each status of a removal is sent; with the acl check disabled it succeeds without a call |
| RequestAnswers.RemovalRequestSucceedsIff | pkg/discovery/subscription/access/access.go:150-182 | with the acl plugins in order: if and only if the route has an acl plugin and the writes needed get through |
| RequestAnswers.LastRemovalAgainFails | pkg/discovery/subscription/access/access.go:174-178 | the removal of a route's last consumer, made again, fails whatever calls fail |
| RequestAnswers.AppRemovalSucceedsIff | pkg/discovery/subscription/application/application.go:72-92 | removing an application needs a recorded consumer in a configured workspace, and when no deletion fails no more; Central drops it if and only if that succeeded |
| RequestAnswers.AppRemovalTakesRecorded | pkg/discovery/subscription/application/application.go:55-88 | when lookups are answered, success leaves none of the recorded consumers in the configured workspaces, and all others |
| RouteQuotas.GrantAccessReaches | pkg/discovery/subscription/access/access.go:127-147 | for every scope and configuration: after an access request, whatever fails, a limit is in force if and only if it was, or the request succeeded and its search hits it |
| RouteQuotas.RevokingReachesOn | pkg/discovery/kong/provisioning.go:172-218 | likewise, when no two rate-limiting plugins share a scope, a removal ends a limit if and only if it ended well, found its consumer listed, and its search hits that limit |
| RouteQuotas.FailedDisablingIsFinal | pkg/discovery/kong/provisioning.go:187-215 | with the acl plugins in order and no two rate-limiting plugins of one scope: after a removal whose disabling failed, a retry writes nothing, and every limit stays as it was |
| RouteQuotas.FailedDisablingHappens | pkg/discovery/kong/provisioning.go:187-215 | a store and a failing third call with which that happens: the removal made again reports success and the consumer's limit on the route is still in force |
| RouteQuotas.ThirdQuotaIsLost | pkg/discovery/kong/provisioning.go:228-245 | after quotas for (R1, A) and (R2, B), one for (R1, B) succeeds, creates nothing and is not in force |
| RouteQuotas.RemovalEndsAnotherQuota | pkg/discovery/kong/provisioning.go:202-215 | after access requests with quotas for those three, removing (R1, B) ends the quota of (R2, B), which B may still use |
| RouteQuotas.AnotherQuotaIsEnded | pkg/discovery/kong/provisioning.go:202-215 | the same from an empty workspace with every call getting through, each step ending well |
| AccessRuns.RunRefinesSets | pkg/discovery/kong/provisioning.go:127-218 | over any run with failing calls each route's allow list in a workspace is the set its insertions and deletions make, if that workspace's acl plugins are in order, and they stay so |
| QuotaRuns.OneWindowIff | pkg/discovery/kong/provisioning.go:339-354 | a quota's configuration has the local policy and exactly one window, holding the limit, unless it is weekly |
| AccessRuns.AccessChangesOnlyOnRequest | pkg/discovery/kong/provisioning.go:127-218 | over any run access is lost only by a removal of that consumer from that route, and gained only by a grant to it |
| AccessRuns.StopsBeforePlugins | pkg/discovery/subscription/access/access.go:117-125 | a weekly request fails before it touches a plugin, and with the acl check disabled no request touches one |
| QuotaRuns.QuotasAreWrittenOnce | pkg/discovery/kong/provisioning.go:202-249 | over any run existing quotas change only their enabled flag and stay unless their consumer is deleted, and each new one has the route, window and limit of a request of the run and the consumer it settled on |
| QuotaRuns.StepReachesQuotas | pkg/discovery/kong/provisioning.go:172-256 | every step of a run, deletions included, puts in force or ends exactly the limits it hits, of any scope and configuration, when no two rate-limiting plugins share a scope |
| QuotaRuns.QuotasFollowIff | pkg/discovery/kong/provisioning.go:202-256 | over any run that begins with no two rate-limiting plugins of one scope: the limits in force, of any scope and with their values, are at every point those that the successful requests and removals so far make, if and only if every step is harmless when it is made |
| QuotaRuns.UntangledQuotasFollow | pkg/discovery/kong/provisioning.go:202-256 | with the acl check on they are, whatever other calls fail, when the acl plugins are in order, each requested pair is tied by its route or by its consumer and always asks for the same quota, quotas in force belong to consumers with access, and no removal of a pair fails half way |
| QuotaRuns.UntangledIff | pkg/discovery/kong/provisioning.go:356-381 | without earlier rate limiting the condition on the plugins holds exactly when no requested pair shares its route with one pair and its consumer with another |
| TangledQuotas.TangledMayNotFollow | pkg/discovery/kong/provisioning.go:356-381 | for any quotas of pairs that are tangled, a run of successful requests within them, from a workspace without plugins, after which the limits in force are not those asked for |
| Applications.AppProvisioner.constructor | pkg/discovery/subscription/application/application.go:55-62 | collects the recorded consumer of each configured workspace that has one |
| Applications.AppProvisioner.Deprovision | pkg/discovery/subscription/application/application.go:72-92 | deletes in the order the iteration takes, stops at the first error, and has visited all on success |
| Applications.DeleteAllPurges | pkg/discovery/subscription/application/application.go:81-88 | any attempt removes exactly the consumers, with what belongs to them, of the workspaces it reached |
| Applications.DeprovisionIsOrderFreeAndRetryable | pkg/discovery/subscription/application/application.go:72-92 | success, at once or after any earlier attempts in any orders, leaves the recorded consumers gone with exactly what belonged to them |
| Applications.RemovedIffLookedUp | pkg/discovery/kong/provisioning.go:63-74 | a deletion that reports success has removed the consumer if and only if its lookup was answered |
| ConsumerBooks.RequestsStayInTheirWorkspace | pkg/discovery/kong/kongclient.go:140-146 | an access request or removal changes no other workspace's store |
| ConsumerBooks.GroupJoinedIff | pkg/discovery/subscription/access/access.go:212-223 | a new consumer is in its group if and only if it was before or both calls got through |
| ConsumerBooks.RecordKeptIff | pkg/discovery/subscription/access/access.go:194-232 | a consumer settled on is recorded if and only if the write of the details got through |
| ConsumerBooks.LostRecordIsNotFound | pkg/discovery/kong/provisioning.go:20-40 | when the record of a new consumer is lost, the next request makes a second one or fails |
| ConsumerBooks.RunKeepsBooks | pkg/discovery/subscription/access/access.go:184-232 | over runs with successful detail writes, found consumers included, an application has at most one consumer made for it per workspace, and the recorded one exists as long as no step has tried to remove the application |
| MissingConsumers.RecordedIsMissingIff | pkg/discovery/subscription/application/application.go:72-92 | over such runs, removals that fail part-way included: the consumer recorded for an application that Central knows is missing from a workspace if and only if a step of the run has deleted it there |
| MissingConsumers.HalfRemovedIsStillGranted | pkg/discovery/subscription/application/application.go:81-88 | a removal that deletes in one workspace and fails in the next leaves both records; a later request that succeeds puts the ID of no consumer on the allow list |
| Names.PrefixIsInjective | pkg/common/common.go:65-67 | names of different workspaces differ |
| Names.NothingGainedAtTheSeam | pkg/discovery/subscription/credential/credential.go:55-65 | appending a suffix adds no occurrence of a type name across or behind the seam |
| Names.NamesRoundTripIff | pkg/discovery/subscription/credential/credential.go:51-65 | the printed name parses back if and only if the workspace contains no type name tried earlier |
| PublishedCredentials.CredentialDefinitions | pkg/discovery/agent/agent.go:376-391 | for an OAS specification the definitions are, each once, those for key-auth, basic-auth and oauth2, named after the workspace and the matching type, as far as those plugins are in effect, in any map order; with the condition under which each parses back; for any other specification none |
| Credentials.CredentialProvisioner.Provision | pkg/discovery/subscription/credential/credential.go:123-197 | new state and reply are those of `Provisioned`; `CredentialMadeIff` says whose credential is made, and when |
| Credentials.CredentialProvisioner.Deprovision | pkg/discovery/subscription/credential/credential.go:67-121 | new state and status are those of `Deprovisioned`; a failing deletion is success |
| Credentials.CredentialProvisioner.Update | pkg/discovery/subscription/credential/credential.go:199-294 | deletion, then creation, both without a workspace in the context |
| CredentialAnswers.NameIsParsedAs | pkg/discovery/subscription/credential/credential.go:51-65 | for every name: the kind is the first type name it contains, the workspace what stands before the type name at its end; none if and only if it contains no type name |
| CredentialAnswers.NoWorkspaceIff | pkg/discovery/subscription/credential/credential.go:67-73 | each sort of request fails for want of a workspace if and only if its name stands for none, and then does nothing |
| CredentialAnswers.CredentialMadeIff | pkg/discovery/subscription/credential/credential.go:123-197 | a credential is made if and only if the consumer recorded for the application in that workspace is found, the call gets through and the ID is unused; it is that consumer's, of the named kind, with the drawn login and secret, recorded by its properties, and nothing else changes |
| CredentialAnswers.CredentialRemovedIff | pkg/discovery/subscription/credential/credential.go:67-121 | a removal succeeds if and only if it is told consumer and credential; it takes out exactly that credential of that kind, in its own workspace, when the consumer is known and the call gets through |
| CredentialAnswers.CredentialRenewedIff | pkg/discovery/subscription/credential/credential.go:199-294 | when a renewal fails, and at which call; on success the login is new for a key or without a recorded one, else the recorded one, the secret is new, and the properties name the request's own workspace |
| Credentials.ProvisionThenDeprovisionRestores | pkg/discovery/subscription/credential/credential.go:86-119 | removing a credential by the properties recorded at creation restores every store |
| Credentials.UpdateActsOnDefault | pkg/discovery/subscription/credential/credential.go:218-291 | a renewal touches only the default workspace; on success the recorded credential is replaced there, keeping a non-empty username or client ID |
| Credentials.ProvisionThenUpdateSwaps | pkg/discovery/subscription/credential/credential.go:249-291 | renewing by the properties recorded at creation swaps that credential for one of the same login, unless it is a key, and no other |
| Credentials.DeletionFailsIff | pkg/discovery/subscription/credential/credential.go:218-247 | a renewal fails at its deletion, changing nothing, if and only if the call fails or the default workspace does not know the consumer |
| Credentials.UpdateReplacesIff | pkg/discovery/subscription/credential/credential.go:218-291 | whatever its outcome, a renewal takes the recorded credential out of its own workspace if and only if that is the default one and the deletion gets through |
| Credentials.ProvisionThenUpdateFails | pkg/discovery/subscription/credential/credential.go:218-247 | in another workspace, a credential just created for a consumer the default one does not know cannot be renewed, and stays |
| Credentials.BlueRenewalFails | pkg/discovery/subscription/credential/credential.go:218-247 | such a workspace and request |
| EffectivePlugins.GetEffectivePlugins | pkg/discovery/kong/plugins.go:55-74 | the loop over the listing is the fold `Effective`; a failed listing is an error; `EffectiveIff` says what is in it |
| EffectivePlugins.MostSpecificByRank | pkg/discovery/kong/plugins.go:18-51 | the higher rank wins, ties go to the first, except that of two global plugins the second wins |
| EffectivePlugins.MostSpecificIsMonoid | pkg/discovery/kong/plugins.go:18-51 | associative, with nil as identity |
| EffectivePlugins.EffectiveIsArgmax | pkg/discovery/kong/plugins.go:55-74 | per name the result is the winning plugin among those that are enabled and for that route or none and that service or none, and there is one exactly when there is such a plugin |
| EffectivePlugins.EffectiveIff | pkg/discovery/kong/plugins.go:63-71 | there is an effective plugin of a name if and only if one is listed that is enabled, for that route or none, and for that service or none; and the effective one is such a plugin |
| EffectivePlugins.MostSpecificWins | pkg/discovery/kong/plugins.go:18-51 | the effective plugin is for route and service if any that applies is, else for the route if any is, else for the service if any is |
| EffectivePlugins.TiesByOrder | pkg/discovery/kong/plugins.go:18-71 | of plugins with the same scope the first listed is effective, of global ones the last |
| EffectivePlugins.EffectiveMerges | pkg/discovery/kong/plugins.go:63-71 | the fold over concatenated listings is the merge of the folds |
| EffectivePlugins.ListingOrderIsIrrelevant | pkg/discovery/kong/plugins.go:63-71 | when same-name ranks differ, the order of the listing does not matter |
| Endpoints.HandleProtocols | pkg/discovery/agent/route.go:52-73 | one endpoint per enabled protocol entry, in order |
| Endpoints.HandlePaths | pkg/discovery/agent/route.go:39-50 | the blocks of all paths in order, base path prepended |
| Endpoints.HandleHosts | pkg/discovery/agent/route.go:31-37 | the blocks of all hosts in order, without base path |
| Endpoints.GetEndpoints | pkg/discovery/agent/route.go:23-29 | testing for no endpoints gives what testing for no hosts would |
| Endpoints.PathAt | pkg/discovery/agent/route.go:39-73 | for one host the length is paths times enabled entries, and entry (p, q) stands at its closed-form index, with that host, the base path before the path, the scheme and its port |
| Endpoints.HostAt | pkg/discovery/agent/route.go:31-73 | the length is the product, and entry (h, p, q) stands at its closed-form index, with host h, path p, scheme q and its port |
| Endpoints.SchemesInOrder | pkg/discovery/agent/route.go:52-73 | the enabled entries of a protocol list are taken over in order, each as often as it stands there |
| Endpoints.OneScheme | pkg/discovery/agent/route.go:52-73 | an entry is taken over if and only if it is http or https and that scheme has a port |
| Endpoints.FallbackAgrees | pkg/discovery/agent/route.go:24-27 | when hosts yield nothing, the default host yields nothing either |
| Endpoints.ValidConfigEnables | pkg/discovery/config/config.go:158-242 | after parsing and validation a scheme is enabled exactly when its port is not zero, and one is |
| Endpoints.AcceptedIff | pkg/discovery/config/config.go:158-193 | a configuration is accepted if and only if host, ports, schemes, base path and the other checks are in order, and what each error says is so |
| Endpoints.BasePathJoins | pkg/discovery/config/config.go:166-171 | a valid base path is empty or joins to a path with exactly one slash at the seam |
| Endpoints.ConfigurationReachesEndpoints | pkg/discovery/agent/route.go:23-73 | a route has no endpoints exactly when it has no paths or names no scheme on offer; each endpoint carries its scheme's configured port |
| Endpoints.ConfiguredEndpoints | pkg/discovery/agent/route.go:23-73 | under a valid configuration the endpoints are exactly the combinations of a host of the route, or the configured host if it has none, a path, with the configured base path in the latter case, and a named scheme on offer with its configured port |
| Discovery.SecondPassFindsAllPublished | pkg/discovery/agent/agent.go:518-526 | a service processed again finds every API published already, and neither stores nor attempts any |
| Discovery.Agent.SpecPreparation | pkg/discovery/agent/agent.go:274-290 | check, store, build, then one attempt to publish |
| Discovery.Agent.ProcessSingleKongService | pkg/discovery/agent/agent.go:242-250 | the routes of a service one after the other |
| Discovery.InterleavingIsSequential | pkg/discovery/agent/agent.go:154-194 | every interleaving of the workers ends with the cache and the publish attempts of the sequential order, each attempt once |
| Discovery.AttemptedAtMostOnce | pkg/discovery/agent/agent.go:318-327 | over all polls, one after the other, no API value is attempted twice |
| Discovery.DiscoverAPIs | pkg/discovery/agent/agent.go:154-175 | starts the workers of `Started`: those of each workspace in order, repeated ones again, up to the first failing listing |
| Discovery.PollFailsIff | pkg/discovery/agent/agent.go:154-175 | a poll reports an error if and only if some listing fails, and starts workers for exactly the services listed before the first failure |
| Discovery.WorkersInOrder | pkg/discovery/agent/agent.go:158-171 | without a failure the workers are those of each workspace in order |
| Discovery.DistinctWorkspacesKeepApart | pkg/discovery/agent/agent.go:158-171 | when the configured workspaces differ, and with them their APIs, no two workers of a poll meet the same API |
| Discovery.RunConserves | pkg/discovery/agent/agent.go:318-327 | in every run of any workers, attempts of an API and workers past a missed check of it grow together by its missed checks |
| Discovery.AttemptsAreEarlyChecks | pkg/discovery/agent/agent.go:318-327 | for any workers, an API not yet cached is attempted exactly as often as it is checked before it is first stored |
| SharedApis.AttemptedOnceIff | pkg/discovery/agent/agent.go:318-327 | an API not yet cached is attempted at most once under every schedule if and only if no two workers of the poll have it |
| SharedApis.SharedIsAttemptedTwice | pkg/discovery/agent/agent.go:318-327 | for any workers' lists, a schedule to the end that attempts a shared API twice |
| SharedApis.RepeatedWorkspaceMayPublishTwice | pkg/discovery/agent/agent.go:158-171 | an API that the listings of two configured workspaces give, as of one configured twice, may be attempted twice in one poll |
| Shutdown.ProcessingCountsHandlers | pkg/traceability/beater/beater.go:94-96 | `processing` is the number of batches between Add and Done |
| Shutdown.EarlyBatchesArePublishedBeforeFlush | pkg/traceability/beater/beater.go:107-120 | from the drain on every batch counted before it is finished, and published if it parsed |
| Shutdown.EarlyIffCountedBeforeDrain | pkg/traceability/beater/beater.go:94-112 | in every state before the drain and after it, the batches so marked are exactly those counted by then |
| Shutdown.SplitsAtDrain | pkg/traceability/beater/beater.go:107-112 | every run past the drain falls into a part before it and a part that begins with it |
| Shutdown.BatchAtExit | pkg/traceability/beater/beater.go:72-120 | when `Run` exits a batch is published if and only if it parses and its handler got that far, and one still in progress was counted after the drain |
| Shutdown.ExitOnlyAfterCleanup | pkg/traceability/beater/beater.go:72-120 | every exit of `Run` has before it, in this order, a drain, a flush, a cleanup and the signal of the shutdown handler; and at that flush every early batch was finished, and published if it parsed |
| Shutdown.ExitedIff | pkg/traceability/beater/beater.go:72-76 | `Run` has exited if and only if it got past that wait |
| Shutdown.RunnerInOrder | pkg/traceability/beater/beater.go:70-76 | it adds itself only after the server has returned, and exits only after that |
| Shutdown.PublishedByHandler | pkg/traceability/beater/beater.go:94-105 | a batch is published only by its own handler, after that was counted |
| Shutdown.CountersFollowCalls | pkg/traceability/beater/beater.go:73-120 | over any run each wait group has counted exactly its calls of Add and Done |
| Shutdown.PanicsIff | pkg/traceability/beater/beater.go:73-109 | a wait group goes negative if and only if the handler signals before `Run` has added itself |
| Shutdown.SignalMayComeFirst | pkg/traceability/beater/beater.go:107-120 | such a run exists |
| Shutdown.LateBatchMayBeLost | pkg/traceability/beater/beater.go:94-120 | a batch counted after the drain may be unpublished when `Run` exits |

## Left out

- PluginSearch.GetSpecificPlugin: a route, service or consumer reference without an ID makes the Go code dereference nil; here such a reference matches nothing.
- KongClients.KongClient.AddRouteACL: a plugin fetched from Kong is a value here, so writing to the fetched copy before it is sent back is a local update, not one through a pointer; a workspace without a client, on which the Go code dereferences nil, is a call that fails.
- AccessRuns.RunRefinesSets: needs that the workspace's acl plugins on a route carry no service and no consumer, and no route has two; without that it is false, as `GrantMayMissTheRoute` shows, and `GrantReaches` and `RevokeReaches` say what holds of each step.
- ConsumerBooks.RunKeepsBooks: needs that IDs and names do not collide and that writes of application details succeed; without the latter it is false, as `LostRecordIsNotFound` shows. Of an application that a step has tried to remove it says only that it has at most one consumer made for it; `RecordedIsMissingIff` says when the recorded one is missing.
- Credentials.CredentialProvisioner.Update: the three kinds of credential share one path here, told apart by a parameter, as do their client calls.
- Discovery.AttemptedAtMostOnce: needs polls whose workers do not share an API, as `DistinctWorkspacesKeepApart` provides; `AttemptedOnceIff` and `AttemptsAreEarlyChecks` say what holds without. After a listing that fails the program stops, so no poll overlaps the workers left behind.
- Discovery.InterleavingIsSequential: concerns API values as built; how a value is built from a specification, and the order of definitions inside it, is not modelled.
- Shutdown.ExitOnlyAfterCleanup: a failing connection at the start of `Run`, and what cleanup does to the agent resource, are not modelled.
- Access requests handled at the same time: requests are taken one after the other.
- HTTP, TLS, specification download, the developer portal and decoding of plugin configurations: foreign code or plain input and output.
- Security schemes, service bodies, tag filters and registration of definitions: calls into the agent SDK.
- Traffic event building, status mapping and sampling: straight-line code around calls into the agent SDK, without state of its own.
- Validation of the admin URL, credentials and TLS: summed up in one flag of `ValidateCfg`.
