# Ephemeral environments: a protocol model of the operator

The operator turns an `EphemeralEnv` resource into a namespace, an RBAC trio, a network policy, a
reference grant, routes and Helm releases, and takes them down again when the resource is deleted or its
time-to-live runs out. This project models that as a concurrent protocol over a cluster store and proves
what it keeps at every micro-step, over whole runs, and from one reconcile pass to the next.

## How the model is built

*The store* (`store.dfy`). The cluster is one linearizable state: resources with versions, finalizers and
deletion marks; namespaces, live or terminating; objects; services; templates; Helm release records. Every
API or Helm call is a `Call` with an exact effect and reply. Writes of a resource are compare-and-swap on
its version; objects cannot be created in a terminating namespace; an install over a record upgrades it.
Each call may fail before it takes effect, fail after it has taken effect, or (release look-ups) be
reported as "not installed".

*One pass* (`machine.dfy`). Between two calls the reconciler only does bookkeeping, so a pass is a state
machine: `Request` gives the next call, `Next` the reaction to its reply. The two template reads of the
create path, the create-or-update of every object, the swallowed clean-up errors and the status fields
written on the way are all in it.

*The system* (`protocol.dfy`). One worker per environment, extend-TTL requests from the dashboard (read,
then write), users who create, edit and delete resources, the namespace controller that reaps and finishes
terminating namespaces, other tenants who relabel namespaces and rewrite or delete objects, and the clock,
in any interleaving. `Run` folds a sequence of events; the theorems over runs quantify over all of them.

*Whole passes* (`pass.dfy`). `OnePass` runs a worker from idle to idle, given for each call what happens
before it and how it goes wrong. It is total: every step strictly decreases a measure. `PassIsRun` makes it
a run of the protocol, so every invariant holds at each of its calls.

*The code's own form* (`cluster.dfy`, `controller.dfy`, `services.dfy`, `text.dfy`, `server.dfy`). The
reconciler's methods are written as the operator has them: they update the fields of a private copy of the
resource, loop over components, releases and services, sort an array in place, fill a byte buffer, and
change a shared `Cluster` object call by call. `Reconciler.Reconcile` is proved to end in exactly the state
and with exactly the result of `OnePass`; what is proved of passes and runs thereby holds of the method.

*The theorems.* `extension.dfy` (extensions), `orphan.dfy` (namespaces), `backing.dfy` and `stranded.dfy`
(routes), `earned.dfy` (Active, the order of the create path), `expiry.dfy`, `early.dfy` and `lifetime.dfy`
(expiry), `prefix.dfy` and `torn.dfy` (releases), `isolation.dfy` (environments among themselves),
`calm.dfy`, `faultless.dfy`, `converge.dfy`, `history.dfy`, `convergence.dfy`, `steady.dfy` (what passes
lead to), `contents.dfy` and `report.dfy` (what they leave in objects and status, spelled out),
`failures.dfy` and `results.dfy` (how passes fail and end), `removal.dfy` (deletion), `uninstall.dfy`
(releases being removed), `lateness.dfy` (wake-ups), `reached.dfy` (runs into the failing states),
`discovery.dfy` and `text.dfy` (service choice, names). `progress.dfy`, `teardown.dfy`, `calls.dfy`,
`scope.dfy` and `runs.dfy` hold the facts about single steps on which all of them rest.

Six promises turn out to need a condition, and the model says which:

* Convergence fails from a cluster whose environment namespace is still terminating, or whose gateway
  namespace is missing or terminating, if something is still to be created there. `ConvergesExactly` gives
  the condition in both directions, `TerminatingBlocks` an instance.
* What a pass leaves behind does not depend on what it found - except for the routes of an environment that
  waits for a service: they stay as they were. `RouteDeterminedExactly` has both directions.
* Routes stay backed only while route clean-up succeeds, because its errors are passed over
  (`SwallowedFaultStrands`). `TakedownBacksRoutes` says exactly which takedowns strand a route,
  `RouteStranded` gives a whole run with one failing call.
* The releases on record stop being a prefix of the component list once uninstalling has begun, because it
  goes through the list from the front. `UninstallKeepsPrefix` says exactly which uninstalls leave a
  prefix, `TeardownKeepsPrefix` which teardowns do, `PrefixLost` gives a whole run without a failing call.
* A takedown can come before the first stored expiry if no expiry was stored when its pass fetched the
  resource and an extension opens it meanwhile (`EarlyTakedown`, and from an initial cluster
  `TakenDownEarly`). `NeverEarly` excludes it wherever the pass found one; `EarlyExactly` says exactly from
  which states of an idle worker it can come to that, `LastMoment` exactly when it is, or still can be made,
  early at the last call.
* A sanitized name does not always start and end with an alphanumeric character, as the comment in the
  source has it; `SanitizeEnds` says exactly when it does.

The comment on service discovery announces an error for several ambiguous matches; the code has none, and
neither has the model.

## Assumptions

Reads are linearizable and one manager is active; passes for one resource are serialized; resource names
are distinct (two resources of one name in different Kubernetes namespaces would share `env-<name>`);
times and durations are whole seconds; nobody but the operator creates or deletes `env-*` namespaces or
strips the operator's finalizer. The expiry is computed from the TTL string by a total function that
yields 24 hours for an absent or unparsable string.

## Model

| member | source | states |
|---|---|---|
| `Extensions.NoLostExtension` | internal/ui/server.go:756-774 | In every run - any interleaving of passes and extend requests, any faults, the resource deleted and re-created at will - the stored expiry is the first value stored plus the durations of all accepted extensions; no status write from a stale copy drops or repeats one |
| `Extensions.LedgerMoves` | internal/ui/server.go:756-764 | The sum behind it grows by exactly the duration of an accepted extension and by nothing else |
| `Orphans.NoOrphanNamespace` | internal/controller/ephemeralenv_controller.go:160-170 | At every micro-step of every run, a namespace `env-X` that is not terminating has its resource X, and X carries the finalizer |
| `Backing.RoutesAlwaysBacked` | internal/controller/ephemeralenv_controller.go:190-247 | At every micro-step of a quiet run, building up or tearing down, an app route lies where the resource says, its environment namespace is live, and a route from another namespace has a ReferenceGrant for that namespace |
| `Backing.SwallowedFaultStrands` | internal/controller/ephemeralenv_controller.go:572-576 | Where a route call of a takedown fails instead: the route outlives the namespace behind it |
| `Stranding.TakedownBacksRoutes` | internal/controller/ephemeralenv_controller.go:556-603 | A takedown or deletion from its route clean-up on, with any of its calls failing, leaves the routes backed if and only if there was none, or its delete was carried out, or the delete of the namespace was not |
| `Reached.RouteStranded` | internal/controller/ephemeralenv_controller.go:569-576 | From any initial cluster with a live gateway namespace a run with one failing call - the route look-up of the takedown - ends with an unbacked route |
| `Earning.ActiveIsEarned` | internal/controller/ephemeralenv_controller.go:190-272 | At any point of any run, with no assumption on what happened before: a pass about to store Active has in that very pass seen the namespace with its labels, the RBAC trio, the policy when isolated, the grant when cross-namespace, the app route to its chosen service, and for every component of its list a release on record, reported in list order; and that list is the specification's, or without components that of the template as read in this pass, or the legacy chart |
| `Earning.ActiveIsInPlace` | internal/controller/ephemeralenv_controller.go:259-272 | If nobody took them away since that pass began, they are all in place when Active is stored |
| `Earning.CreateOrder` | internal/controller/ephemeralenv_controller.go:190-277 | At any call for a route or for Helm, in any run, namespace, RBAC trio, policy and grant have been seen in place in the same pass; for a named service the app route is before any Helm call, for a discovered one every listed release is on record before any route call |
| `Earning.InstallsListed` | internal/controller/ephemeralenv_controller.go:1044-1122 | In any run a release that a pass puts on record is `env-<name>-<fragment>`, in the environment's namespace, of a component of the list that pass resolved, and the values of that component parse |
| `Backing.RouteNamesItsBackend` | internal/controller/ephemeralenv_controller.go:718-737 | Whenever a route is about to be written, in any run, its backend is the named service or, in discovery mode, a listed service that is neither headless nor external, whose name does not hold "metrics" in any case, and that has exactly the route's port |
| `Backing.ListedFromStore` | internal/controller/ephemeralenv_controller.go:1250-1254 | The listing that choice was made from is what the store listed at that moment; without one the pass gives up before any route |
| `Backing.StageObjIdempotent` | internal/controller/ephemeralenv_controller.go:752-773 | Applying an object's mutation twice is applying it once, whatever was found |
| `Expiry.NeverEarly` | internal/controller/ephemeralenv_controller.go:178-188 | With non-negative extensions of the resource, expiry deletes its namespace only after the expiry its pass found, which is never before the first one stored - or, if none was stored, after creation plus TTL |
| `Expiry.EarlyTakedown` | internal/controller/ephemeralenv_controller.go:178-188 | Where none was stored, a run in which the namespace is deleted although the first stored expiry lies in the future |
| `Reached.TakenDownEarly` | internal/controller/ephemeralenv_controller.go:178-188 | The same as a run from any initial cluster: the first pass fails before it has stored the status |
| `Earliness.EarlyExactly` | internal/controller/ephemeralenv_controller.go:178-188 | From an idle worker at any point of any run, its own calls with any faults and non-negative extensions can lead to a takedown before the first expiry ever stored if and only if the resource is not being deleted, no expiry is stored, creation plus TTL has passed and the namespace is live; if time may pass as well, if and only if no expiry is stored and the namespace is live, or absent with time left to make it |
| `Earliness.LastMoment` | internal/controller/ephemeralenv_controller.go:588-595 | About to delete the namespace on expiry, in any run: the takedown is early, or one extension still makes it so, if and only if its pass found no expiry and none that is past has been stored since |
| `Expiry.ExpiryAbsorbs` | internal/controller/ephemeralenv_controller.go:556-603 | From the first expiry pass on and without further extensions, no pass of any continuation is in the create path for that incarnation, and the stored phase is what it was or Expired |
| `LifeTime.FetchDecides` | api/v1alpha1/ephemeralenv_helpers.go:43-96 | A pass that fetches a resource goes on with a copy that expires when the stored value says or, without one, `seconds` after creation for a TTL that parses and 86400 after it otherwise; it takes the expiry branch exactly if that is past |
| `LifeTime.StoresDue` | internal/controller/ephemeralenv_controller.go:172-188 | In any run every status a pass stores, Active, waiting, failed or expired, has that expiry |
| `LifeTime.PassStoresDue` | internal/controller/ephemeralenv_controller.go:172-188 | So after a whole pass with any of its calls failing a resource that had no expiry still has none, or has the one of its specification |
| `Results.StoresExpired` | internal/controller/ephemeralenv_controller.go:556-603 | In any run what an expiry pass stores is phase Expired, the condition of that name True, and a text and time that say whether the namespace was cleaned up |
| `Prefix.PrefixDeployment` | internal/controller/ephemeralenv_controller.go:947-968 | With one fixed list and any check, parse or install failing at any time, the releases on record are those of a prefix of the list until uninstalling begins, and all of them once a pass has the whole list behind it |
| `Prefix.HelmDeployedLast` | internal/controller/ephemeralenv_controller.go:957-968 | A step that turns HelmDeployed True goes on with the pass, and has its whole list confirmed on record |
| `Prefix.ReleasesGrow` | internal/helm/client.go:97-111 | No event takes a release of an environment off the record, short of its own uninstalls and the end of its namespace |
| `Prefix.UninstallKeepsPrefix` | internal/controller/ephemeralenv_controller.go:1166-1189 | For any list and any recorded prefix of it: an uninstall leaves the releases of a prefix if and only if it did not take effect, its release was not on record, or that release is the last of the prefix |
| `TornPrefix.TeardownKeepsPrefix` | internal/controller/ephemeralenv_controller.go:1156-1191 | A whole teardown with any of its calls failing does so if and only if no entry is missed unless all before it are |
| `TornPrefix.PrefixLost` | internal/controller/ephemeralenv_controller.go:290-332 | From any initial cluster a run without a failing call records two or more components, deletes the resource and, with the first uninstall, has no prefix on record |
| `Scope.WorkOnlyTouches` | internal/controller/ephemeralenv_controller.go:606-699 | Any micro-step for X, with any fault, changes nothing that is not keyed by X's name |
| `Scope.OwnersDisjoint` | api/v1alpha1/ephemeralenv_helpers.go:70-82 | No object key or release key belongs to two environments |
| `Isolation.NonInterference` | api/v1alpha1/ephemeralenv_helpers.go:70-82 | In runs where Y's gateway stays out of `env-*`, any micro-step for X and every event of the end of X's namespace, reaped objects included, leave Y's resource, namespace, objects, releases, services and worker as they were |
| `Isolation.PassNonInterference` | internal/controller/ephemeralenv_controller.go:138-287 | So does a whole pass for X from any state of any run, with any of its calls failing and only time passing between them |
| `Model.NsNameInjective` | api/v1alpha1/ephemeralenv_helpers.go:70-72 | Distinct resources have distinct namespaces |
| `Model.RouteNamesDisjoint` | internal/controller/ephemeralenv_controller.go:799-800 | App and admin route names of any environments never meet |
| `Pass.PassIsRun` | internal/controller/ephemeralenv_controller.go:138-287 | Every pass ends, whatever its calls' fates, and is a run of the protocol from idle to idle |
| `Pass.NextCloser` | internal/controller/ephemeralenv_controller.go:138-287 | Any reply at any point of a pass brings it strictly closer to its end |
| `Failures.FailureTells` | internal/controller/ephemeralenv_controller.go:101-134 | A step that gives up sets phase Failed with the text of the step its call belongs to - namespace, RBAC, policy, grant, route or Helm, and after a Helm call HelmDeployed False with its transition time - and leaves the rest of the status |
| `Failures.PassTellsFailure` | internal/controller/ephemeralenv_controller.go:101-134 | A whole pass that ends that way, whatever happened in it, has stored just that if its last write was accepted |
| `Results.PassResultMeans` | internal/controller/ephemeralenv_controller.go:138-332 | How every pass ends, whatever happened in it: the delay after which it asks to be repeated and whether it reports an error, by its last call and the answer to it |
| `Progress.NextBuilding` | internal/controller/ephemeralenv_controller.go:190-277 | A step of the create path only counts as done what a reply has shown, leaves out no needed stage, keeps expiry and specification of its copy, and otherwise gives up |
| `Teardown.NextTearing` | internal/controller/ephemeralenv_controller.go:290-331 | A step of a teardown stays on its path, deals with the route before releases and namespace, and drops the finalizer or reports success only after a reply has shown the namespace gone or going |
| `Teardown.NextSound` | internal/controller/ephemeralenv_controller.go:138-287 | Any reply, of any kind and content, leaves the worker in a state its code can go on from |
| `Calm.KinAble` | internal/controller/ephemeralenv_controller.go:335-372 | Where a namespace takes no objects, undisturbed passes bring none there |
| `Convergence.Converges` | internal/controller/ephemeralenv_controller.go:190-277 | From any cluster with room for what is missing and a service to route to, with at most k failing calls in all, one of the next k + 1 passes stores Active with everything in place, and no recorded release is lost |
| `Convergence.PassProgress` | internal/controller/ephemeralenv_controller.go:190-277 | Each such pass either arrives there or has used up a fault |
| `Convergence.ConvergesExactly` | internal/controller/ephemeralenv_controller.go:190-277 | It does so if and only if everything missing has a namespace that takes it and some service qualifies; otherwise no number of passes does |
| `Convergence.TerminatingBlocks` | internal/controller/ephemeralenv_controller.go:335-359 | A terminating environment namespace without the service account is such a cluster |
| `History.CleanPassSettles` | internal/controller/ephemeralenv_controller.go:190-277 | A pass in which no call fails puts the namespace, every wanted object and every release in place and adds no other release; if a service qualifies the routes are among them, Active is stored and the components are reported, otherwise it stores that it waits and every route is as it was |
| `Contents.PassContents` | internal/controller/ephemeralenv_controller.go:335-552 | What such a pass leaves in so many words: the labels of the namespace; key, labels and body of service account, role (full access), binding (the environment's namespace), policy (deny all, or the body found) if isolated, grant (from the gateway's namespace) if cross-namespace, app route (host, backend, port) and, with an operator service, the admin route (its host, service, namespace, 8080); the name of each release; every other label of an object and every other object and namespace as it was |
| `Contents.SettledContents` | internal/controller/ephemeralenv_controller.go:703-931 | The same contents in every cluster where everything is in place, after however many passes with whatever faults |
| `Reporting.PassReports` | internal/controller/ephemeralenv_controller.go:190-277 | And the whole status it stores: phase, message, active namespace, URLs, expiry, each condition with its transition time, the component list, the legacy release name, LastReconcileTime - given what was there before |
| `History.HistoryIndependence` | internal/controller/ephemeralenv_controller.go:402-483 | Two clusters that agree on x's specification, services and template, but on no object, release or status, come out of such a pass - waiting or not - with equal operator-controlled fields in the namespace and in every object asked for, the routes only if a service qualifies |
| `History.RouteDeterminedExactly` | internal/controller/ephemeralenv_controller.go:213-257 | What such a pass leaves of a route is the same for every object it may have found there if and only if a service qualifies |
| `Steadiness.PassesSettle` | internal/controller/ephemeralenv_controller.go:190-277 | Of three such passes in a row the second and third write nothing but the status of the resource, and the third changes nothing in it but LastReconcileTime - and, if they wait for a service, not even that |
| `Removal.DeletionTerminates` | internal/controller/ephemeralenv_controller.go:290-332 | With at most k failing fetch, namespace and finalizer calls, one of the next k + 1 passes releases a resource under deletion, its namespace absent or terminating, and if no route call failed in that pass neither route remains |
| `Removal.RemovalPass` | internal/controller/ephemeralenv_controller.go:290-332 | Each pass over it either does that or had such a call fail, and then left the resource as it was |
| `Uninstalling.UninstallContainsFaults` | internal/controller/ephemeralenv_controller.go:1156-1191 | After a teardown a release is still on record if and only if it was before and every entry naming it was missed: its own look-up failed or its own uninstall did not take effect |
| `Uninstalling.UninstallTwice` | internal/controller/ephemeralenv_controller.go:1156-1191 | After one without failures no tracked release is left and a second changes no release |
| `Uninstalling.LegacyUninstalled` | internal/controller/ephemeralenv_controller.go:1194-1214 | Where no release is tracked, a teardown with a Helm client takes exactly `env-<name>` off the record unless its look-up failed or its uninstall did not take effect; without a client it takes none |
| `Lateness.BoundedLateness` | internal/controller/ephemeralenv_controller.go:280-286 | However many passes, with services, edits, extensions and failing calls in and between them: if wake-ups are honoured up to the pass that takes the expiry branch, and not all passes begin before the expiry, one of them takes that branch no later than a pass's duration and five seconds (or the longer back-off after an error) after it |
| `Lateness.ExpiryAhead` | internal/controller/ephemeralenv_controller.go:280-286 | Every such schedule that has not reached the expiry can be continued to one that does, and takes the environment down in time |
| `Lateness.ExpiryPassEnds` | internal/controller/ephemeralenv_controller.go:598-602 | A fault-free pass after the expiry takes the expiry branch, asks for no wake-up and ends the schedule |
| `Lateness.PassWakes` | internal/controller/ephemeralenv_controller.go:185-188 | A pass whose fetch succeeds takes the expiry branch exactly when it begins after the stored expiry, and otherwise asks to be woken by then or within five seconds |
| `Lateness.NoWakeUp` | internal/controller/ephemeralenv_controller.go:280-286 | A pass that stored Active asks for no wake-up exactly at the very second of the expiry |
| `Discovery.DiscoverRefines` | internal/controller/ephemeralenv_controller.go:1246-1316 | Discovery fails exactly when no listed service is eligible; otherwise it returns an eligible one, of minimal name length among those containing the component's name case-insensitively if any do, else of minimal length |
| `Discovery.AnySortPrefers` | internal/controller/ephemeralenv_controller.go:1293-1316 | The same for any order in which a sort by length leaves ties |
| `Discovery.DiscoverPermuted` | internal/controller/ephemeralenv_controller.go:1293-1316 | With distinct lengths the answer does not depend on the order of the listing |
| `Discovery.DiscoverMeans` | internal/controller/ephemeralenv_controller.go:1246-1316 | The same in so many words: what fits, what goes by the component's name letter by letter in either case, and what is shortest |
| `Discovery.ResolveMeans` | internal/controller/ephemeralenv_controller.go:975-1019 | The components of the specification; without any, a readable template's, even if it has none; in every other case the legacy chart as the one primary component, if there is one |
| `Discovery.PrimaryNameMeans` | internal/controller/ephemeralenv_controller.go:1218-1241 | The first primary component of the specification, else of a template that can be read, else the legacy chart's name, else none |
| `Discovery.PrimaryAgreesWithResolution` | internal/controller/ephemeralenv_controller.go:1218-1241 | The name used by the heuristic is that of the first primary component of the very list the deployment resolves to |
| `Text.SanitizeName` | internal/controller/ephemeralenv_controller.go:1125-1153 | The loop over bytes with its trims and cut computes the function the lemmas on names are about |
| `Text.SanitizeShape` | internal/controller/ephemeralenv_controller.go:1125-1153 | Every name becomes 1 to 20 characters of lower-case letters, digits and dashes |
| `Text.SanitizeKeeps` | internal/controller/ephemeralenv_controller.go:1125-1153 | A fragment with alphanumeric ends is kept as it is |
| `Text.SanitizeEnds` | internal/controller/ephemeralenv_controller.go:1138-1149 | Either end is alphanumeric if and only if the filtered name has no doubled dash there or, where the name is cut, the cut falls on no dash |
| `Text.SanitizeSettles` | internal/controller/ephemeralenv_controller.go:1125-1153 | Repeated sanitizing reaches a fixed point in no more rounds than dashes are left |
| `Text.SanitizeReads` | internal/controller/ephemeralenv_controller.go:1128-1137 | Anywhere in any name an upper-case letter counts as its lower-case one, a space or underscore as a dash, and any other character that is no letter, digit or dash not at all |
| `Text.SanitizeCuts` | internal/controller/ephemeralenv_controller.go:1138-1153 | What is left loses one dash at either end and what is beyond the twentieth character, and is "component" if nothing is left |
| `Text.SanitizeLowers` | internal/controller/ephemeralenv_controller.go:1125-1153 | A name of letters, digits, spaces, underscores and dashes with alphanumeric ends comes out one for one, up to the twentieth character |
| `ServiceSearch.FilterServices` | internal/controller/ephemeralenv_controller.go:1256-1284 | The two loops keep exactly the eligible services, in list order |
| `ServiceSearch.SortByNameLength` | internal/controller/ephemeralenv_controller.go:1297-1300 | The array is sorted by name length in place, as the sort function of the specification has it |
| `ServiceSearch.ChooseService` | internal/controller/ephemeralenv_controller.go:1291-1314 | Sorting and searching choose the service that `DiscoverRefines` is about |
| `ServiceSearch.FindPrimary` | internal/controller/ephemeralenv_controller.go:1219-1224 | The loop returns the first primary component's name, or none |
| `ClusterState.Cluster.Do` | internal/controller/ephemeralenv_controller.go:138-287 | A call that the protocol expects gets the store's reply and keeps the pass on its course, whatever happens before it and however it goes wrong |
| `Controller.Reconciler.Reconcile` | internal/controller/ephemeralenv_controller.go:138-170 | One invocation ends in exactly the state, with exactly the result, of the protocol's pass |
| `Controller.Reconciler.ReconcileFetched` | internal/controller/ephemeralenv_controller.go:172-287 | The same from a fetched copy on: stamping, expiry, create path (what is stamped: `FetchDecides`) |
| `Controller.Reconciler.AddFinalizerAndRefetch` | internal/controller/ephemeralenv_controller.go:160-170 | The finalizer is stored before anything is created, and the copy is current again, or the pass ends in an error |
| `Controller.Reconciler.EnsureInfrastructure` | internal/controller/ephemeralenv_controller.go:190-207 | Namespace, access, policy and grant are ensured in this order; the first failure is the one reported |
| `Controller.Reconciler.ServeNamed` | internal/controller/ephemeralenv_controller.go:241-277 | For a named service the routes come before Helm |
| `Controller.Reconciler.ServeDiscovered` | internal/controller/ephemeralenv_controller.go:213-257 | For a discovered one Helm comes first, and no route before a service is found |
| `Controller.Reconciler.Conclude` | internal/controller/ephemeralenv_controller.go:269-286 | Active is stored, and the wake-up asked for is the time to the expiry, or a second if that has passed |
| `Controller.Reconciler.ReconcileStepOnError` | internal/controller/ephemeralenv_controller.go:101-115 | A failed step ends the pass through a status write of phase Failed with the text of that step, and always reports the error |
| `Controller.Reconciler.ReconcileHelmFailed` | internal/controller/ephemeralenv_controller.go:118-134 | A failed deployment does so with the Helm text and HelmDeployed False |
| `Controller.Reconciler.HandleDeletion` | internal/controller/ephemeralenv_controller.go:290-332 | Routes, releases, namespace, finalizer in this order; only a namespace failure keeps the finalizer |
| `Controller.Reconciler.HandleExpiration` | internal/controller/ephemeralenv_controller.go:556-603 | Phase Expired, route, releases, namespace; a namespace failure is stored and retried in 30 seconds |
| `Controller.Reconciler.CreateOrUpdate` | internal/controller/ephemeralenv_controller.go:403-420 | Read, then create, update or leave: the object is in place afterwards or the stage counts as failed |
| `Controller.Reconciler.EnsureNamespace` | internal/controller/ephemeralenv_controller.go:335-379 | On success the copy names the namespace and its condition; on failure the copy is unchanged |
| `Controller.Reconciler.EnsureDeveloperAccessRBAC` | internal/controller/ephemeralenv_controller.go:384-489 | Service account, role and binding, in this order, as the pass of the protocol has them (their contents: `PassContents`) |
| `Controller.Reconciler.EnsureNetworkPolicy` | internal/controller/ephemeralenv_controller.go:493-552 | Skipped without isolation; otherwise ensured and reported (its content: `PassContents`) |
| `Controller.Reconciler.EnsureReferenceGrant` | internal/controller/ephemeralenv_controller.go:876-931 | Skipped when route and service share a namespace |
| `Controller.Reconciler.EnsureHTTPRoute` | internal/controller/ephemeralenv_controller.go:703-793 | Ensured for the given service; URL and condition only on success |
| `Controller.Reconciler.EnsureAdminHTTPRoute` | internal/controller/ephemeralenv_controller.go:797-872 | The pass goes on whether it succeeds or not (its content: `PassContents`) |
| `Controller.Reconciler.EnsureHelmRelease` | internal/controller/ephemeralenv_controller.go:936-971 | The list is deployed in order up to the first failure; statuses are only written when all of it is deployed |
| `Controller.Reconciler.DeployComponent` | internal/controller/ephemeralenv_controller.go:1044-1122 | A recorded release is left alone; values are parsed before anything is installed; a primary component names the legacy release |
| `Controller.Reconciler.ResolveComponents` | internal/controller/ephemeralenv_controller.go:975-1019 | Exactly the specification's components; else exactly those of the template, if the read just made found it; else exactly the legacy chart |
| `Controller.Reconciler.GetPrimaryComponentName` | internal/controller/ephemeralenv_controller.go:1218-1241 | The primary component's name in the same order of sources, with the template as it was just read |
| `Controller.Reconciler.DiscoverService` | internal/controller/ephemeralenv_controller.go:1246-1316 | Returns what discovery promises for the services the store listed; there is none exactly when the listing failed or none of them is eligible |
| `Controller.Reconciler.UninstallHelmRelease` | internal/controller/ephemeralenv_controller.go:1156-1214 | Every named entry is looked up and uninstalled in turn, a failure with one not stopping the next; without entries the legacy release |
| `Controller.Reconciler.CleanupNamespace` | internal/controller/ephemeralenv_controller.go:606-638 | Success exactly when the namespace was seen gone or going |
| `Controller.Reconciler.CleanupHTTPRoute` | internal/controller/ephemeralenv_controller.go:642-668 | Looked up, deleted if found, errors passed over |
| `Controller.Reconciler.CleanupAdminHTTPRoute` | internal/controller/ephemeralenv_controller.go:672-699 | The same for the dashboard's route |
| `Dashboard.Server.ExtendTTL` | internal/ui/server.go:741-780 | With anything running between its read and its write, an answered request has moved the expiry it read by exactly its duration, and that is what is stored; a request without a resource or a valid duration changes nothing |

## Left out

- PrefixDeployment: speaks of runs up to the first uninstall, because afterwards it is false (`UninstallKeepsPrefix`, `PrefixLost`); and release records last until their namespace is gone, where in a cluster they are objects that the namespace controller may reap before.
- ReleasesGrow: takes release records to last until their namespace is gone, in the same way.
- TeardownKeepsPrefix: lets only time pass between the calls, as `UninstallContainsFaults` does; `UninstallKeepsPrefix` speaks of any state.
- NeverEarly: where its pass found no expiry it bounds a takedown by creation plus TTL only; `EarlyExactly` and `LastMoment` say exactly when such a takedown can precede the first stored expiry.
- EarlyExactly: lets x's worker, extend requests and, where said, the clock act, not users, other tenants or the namespace controller.
- RoutesAlwaysBacked: assumes that route deletes succeed, that nobody else writes the environment's objects, that the gateway's namespace is not edited and that no create path starts in a terminating namespace; `SwallowedFaultStrands` shows what the first is needed for.
- TakedownBacksRoutes: lets only time pass between the calls, and takes the copy to name the gateway namespace that is stored.
- PassNonInterference: lets only time pass between the calls, since other events may well change Y.
- PassContents: of passes without a fault in which only time passes between the calls, as `PassReports` is; `SettledContents` is about any cluster in which everything is in place.
- Converges: lets only time pass between the calls of a pass; other writers would be further faults.
- DeletionTerminates: lets time pass and the namespace controller work between the calls, not users who edit the resource; a conflicting edit is one more failing finalizer call.
- UninstallContainsFaults: lets only time pass between the calls, because the end of the namespace removes untracked releases too.
- BoundedLateness: takes the work queue's back-off after an error as a parameter, and passes whose fetch succeeds.
- ExpiryAhead: asks for schedules in which a pass may last two seconds, since the model's clock moves by whole ones.
- ExtendTTL: takes the parsed duration and any resource name; the handlers of the dashboard reach only resources in the Kubernetes namespace `default`. Request decoding and the response are not modelled.
- A pass that waits stores whatever phase it found, once set, and no LastReconcileTime; of a wait the message is claimed, and that repeating it changes nothing.
- handleCreateEnv and handleDeleteEnv appear as events of the protocol, not as handlers.
- Texts of messages, reasons of conditions and log lines are tokens; durations are whole seconds; parsing of TTL strings is a total function.
- Optimistic concurrency on namespaces and objects is compare-and-swap on their contents, not on a version of their own.
- The sort is the insertion sort that Go uses for up to twelve elements; `AnySortPrefers` covers any other order of ties.
- Lower-casing and containment are those of ASCII names, which Kubernetes names are.
- Chart download, upgrade and release health inside the Helm client: only the record, the upsert and the removal are kept.
- MockClient answers look-ups from its log of installs whatever the name, so it is no instance of the release store.
- Stale caches, several managers, wall-clock jumps.
- HTTP plumbing, kubeconfig generation, the template catalogue, pod listing and log streaming, deepcopy, scheme registration and start-up.
