# A verified model of the WordPress operator

The operator reads a `WordPress` custom resource and drives eight kinds of object towards what its spec asks for: a
Secret with generated credentials, two Services, a StatefulSet for MySQL, a claim for the site's content, a Deployment,
an Ingress and an autoscaler.  It keeps a status record and runs a finalizer protocol on deletion.  Every call it makes
can fail or conflict, and users and other controllers act between any two of its calls.

The model has three layers.

- **The API server** (`Server.dfy`): a store from keys (kind, namespace, name) to objects with an identity, a resource
  version, a controller, finalizers, a body and, for a WordPress resource, a generation.  `Create` fails if the key is
  taken, `Update` and the status update fail with a conflict unless the version is current, a spec update never touches
  status and a status update nothing else, an object with finalizers is only marked by `Delete`.
- **The reconciler**, twice.  `Machine.dfy` is one pass of `Reconcile` as a machine that makes one API call per step:
  `Call` is the next call, `Next` what the pass does with the answer.  `Reconciler.dfy` is the same pass as the operator
  runs it, methods that update the resource in memory and loop over attempts at the status.  A ghost monitor in the
  client accepts a request only if it is the one the machine would make next, so the methods are proved to make exactly
  the machine's calls, with the machine's objects, in the machine's order, for every stream of answers.
- **The system** (`System.dfy`): the store and any number of passes in flight, for any resources.  An adversary picks
  every action: another writer replaces the store by any store the versioning rules allow; a pass starts, steps or dies;
  a read is answered from any earlier store of the run; a call is refused, or takes effect and still reports an error.

Everything the code computes between calls is there too: defaulting and validation (`Defaults.dfy`), the merge of found
and desired object (`Drift.dfy`), names (`Names.dfy`, `Footprint.dfy`), labels (`Labels.dfy`), the builders
(`Builders.dfy` as functions, `BuilderMethods.dfy` in the step-by-step form of the ones that assemble their object), the
condition list (`Conditions.dfy`) and the generated deep copies over the heap (`DeepCopy.dfy`).  `Outcome.dfy` and `Reporting.dfy`
state, with every name, default and format written out, what all of it together makes of a spec as the user wrote it: the
objects stored after an undisturbed pass, and the status saved.

Theorems about runs hold for every run of the system.  What they ask of others is an explicit premise: `Rely(s0,
actions, promise)` says that every step of the environment keeps `promise`.

## Where code and documentation disagree

The model follows the code.

- `README.md:208` promises that the autoscaler alone controls the replica count.  A pass writes "no count" over whatever
  is stored; `Lifecycle.ReplicasAfterAPass` says exactly when the stored count survives, and in
  `Lifecycle.ChosenCountAndAddedPortAreLost` a chosen count of seven is gone.
- The comment at `internal/controller/wordpress_controller.go:380` says that unmanaged Service ports are preserved.  All
  ports are replaced: an object at a wanted child's key survives a pass unchanged if and only if all its managed fields,
  ports among them, are as built (`Lifecycle.OverwrittenUnlessAgreeing`).  An added port is gone in
  `Lifecycle.ChosenCountAndAddedPortAreLost`.
- The same holds whoever controls the object: an enabled Ingress or autoscaler overwrites a foreign one of the same name,
  and only deletion looks at the owner.  `Lifecycle.ForeignIngressIsOverwritten` is a store in which it happens.
- `README.md:39` calls the status robust.  A site that was Ready and loses its external Secret is reported Ready=True with
  DatabaseReady=False: `StatusCoherence.ReadyWithoutDatabase` is a run that ends so.  Over all runs this happens if and
  only if a pass saves its status after it read a Ready resource and found the Secret missing
  (`StatusCoherence.ReadyImpliesDatabaseIff`).
- `handleDeletion` looks at the mode as stored, before defaulting in code, so a resource stored without a mode leaves its
  data claim behind (`Lifecycle.QuietDeletion`, `Lifecycle.EmptyModeKeepsData`, and `Lifecycle.ModelessLeavesItsData`
  for a store in which it does).  The schema has a default for the mode
  (`api/v1alpha1/wordpress_types.go:111`) and the update that adds the finalizer sends the database section again, so a
  stored empty mode takes a server that does not apply that default.
- `persistStatus` does not check that the resource it reads again is the one the pass began with.  A resource deleted and
  created anew under the same name can be marked as observed at a generation it never had
  (`Observation.ReusedNameBreaksTheBound`); over all runs the bound holds if and only if every status write lands on the
  resource its pass read or on one that has reached that generation (`Observation.ObservedNeverExceedsIff`).
- User pod labels can override selector labels (`Labels.SelectorMatchesUnlessOverridden`): giving
  `app.kubernetes.io/instance` another value is enough (`Labels.OverriddenInstanceBreaksTheSelector`).

## Model

| member | source | states |
|---|---|---|
| Reconciler.Controller.Reconcile | internal/controller/wordpress_controller.go:62-98 | whatever the server answers, `Reconcile` makes exactly the calls of the machine's pass, one after the other, and returns its error and delay |
| Reconciler.Controller.Drive | internal/controller/wordpress_controller.go:100-141 | the order of the helpers, the extra status write when the database helper fails or waits, swallowed conflicts, and the 15 second delay unless Ready |
| Reconciler.Controller.ReconcileDatabase | internal/controller/wordpress_controller.go:177-291 | the database helper issues the machine's calls and leaves pass and memory in step, in both modes, on every error |
| Reconciler.Controller.CheckExternalSecret | internal/controller/wordpress_controller.go:182-210 | the external Secret is read, never written; missing means a condition and a 30 second delay, any other failure an error |
| Reconciler.Controller.EnsureSecret | internal/controller/wordpress_controller.go:212-229 | a Secret is created only after a read found none, and never updated |
| Reconciler.Controller.EnsureStatefulSet | internal/controller/wordpress_controller.go:240-291 | readiness is judged by the StatefulSet as it was read, zero if it was just created |
| Reconciler.Controller.ApplyStatefulSet | internal/controller/wordpress_controller.go:249-270 | the update sent is the merge of what was read with the desired replicas and template, and is sent only if they differ |
| Reconciler.Controller.ReconcileClaim | internal/controller/wordpress_controller.go:293-313 | the content claim is created if absent and never updated |
| Reconciler.Controller.ReconcileDeployment | internal/controller/wordpress_controller.go:315-351 | the resolved database host goes into the status whether or not the Deployment call succeeds |
| Reconciler.Controller.ApplyDeployment | internal/controller/wordpress_controller.go:333-350 | create, or send the merge exactly if `deploymentEqual` says the managed fields differ |
| Reconciler.Controller.ApplyService | internal/controller/wordpress_controller.go:365-391 | create, or send the merge exactly if spec, labels or annotations differ; the same helper serves both Services |
| Reconciler.Controller.ReconcileService | internal/controller/wordpress_controller.go:353-361 | the site's Service is handed to the shared helper under the resource's own name |
| Reconciler.Controller.ReconcileIngress | internal/controller/wordpress_controller.go:393-454 | in both halves the helper issues the machine's calls and leaves pass and memory in step |
| Reconciler.Controller.WithdrawIngress | internal/controller/wordpress_controller.go:399-413 | a disabled Ingress is deleted only if the resource controls it; its condition goes only when the Ingress is already absent |
| Reconciler.Controller.ApplyIngress | internal/controller/wordpress_controller.go:415-454 | the condition says Created or Reconciled according to what was found, and is not set when a write failed |
| Reconciler.Controller.ReconcileAutoscaler | internal/controller/wordpress_controller.go:456-474 | a disabled autoscaler is deleted only if the resource controls it |
| Reconciler.Controller.ApplyAutoscaler | internal/controller/wordpress_controller.go:475-494 | create, or replace labels and spec if either differs |
| Reconciler.Controller.UpdateStatus | internal/controller/wordpress_controller.go:496-548 | an absent Deployment counts as zero replicas; any other read failure leaves the stored status alone |
| Reconciler.Controller.SetReported | internal/controller/wordpress_controller.go:505-546 | the in-place edits add up to one report: replicas, generation, three conditions, phase and URL |
| Reconciler.Controller.PersistStatus | internal/controller/wordpress_controller.go:604-614 | the retry loop makes at most five attempts, begins each with a fresh read, retries on a conflict of either call and stops at anything else |
| Reconciler.Controller.MarkFailed | internal/controller/wordpress_controller.go:589-598 | a rejected spec ends the pass quietly whatever becomes of the status write |
| Reconciler.Controller.HandleDeletion | internal/controller/wordpress_controller.go:555-587 | the data claim is looked up and deleted before the finalizer is dropped; which errors stop the handler and which do not |
| Reconciler.Resource.ApplyDefaults | internal/controller/defaults.go:27-100 | the sequence of guarded assignments computes the defaulted spec |
| BuilderMethods.BuildDeployment | internal/controller/resources.go:65-208 | appending variables and volumes and dropping the replica count last yields the Deployment all theorems speak of |
| BuilderMethods.BuildService | internal/controller/resources.go:211-238 | setting the node port in place on the first port yields the Service of the model |
| BuilderMethods.BuildIngress | internal/controller/resources.go:265-313 | adding TLS afterwards yields the Ingress of the model |
| BuilderMethods.BuildStatefulSet | internal/controller/database.go:109-222 | overwriting the root password's source yields the StatefulSet of the model; an unparsable size yields an error |
| Labels.MergeStringMaps | internal/controller/names.go:106-117 | in whatever order the maps are traversed, the last map that has a key decides |
| Labels.SelectorMatchesUnlessOverridden | internal/controller/resources.go:71-73 | the Deployment's selector matches its own template if and only if the user's pod labels set no selector label to another value |
| Labels.OverriddenInstanceBreaksTheSelector | internal/controller/resources.go:71-73 | pod labels that do: any instance label other than the resource's own name makes the Deployment's selector miss its own template |
| Drift.MergeMeetsDesired | internal/controller/wordpress_controller.go:374-390 | the patch agrees with the builder on every managed field, keeps everything else, and is sent exactly when the object read does not agree already |
| Drift.MergeIsUnique | internal/controller/wordpress_controller.go:342-346 | the patch is the only object that agrees with the builder and keeps the rest |
| Guarantee.EveryCallHasItsEffect | internal/controller/wordpress_controller.go:259-269 | over any run, with any writes in between, each call does one described thing to the store it meets, or nothing |
| System.RunInv | internal/controller/wordpress_controller.go:66-89 | in every run a pass in flight holds a resource that was stored, up to defaulting, and acts only on objects it has seen |
| Safety.CredentialsNeverRotate | internal/controller/database.go:53-79 | over any run, whatever is drawn, refused, lost or stale, a stored Secret stays exactly as first written unless an outsider changes it |
| Safety.UpdatesLoseNothing | internal/controller/wordpress_controller.go:342-348 | an accepted child update equals the version stored immediately before with only the managed fields replaced |
| Safety.SpecsBelongToUsers | internal/controller/wordpress_controller.go:87-89 | no call of any pass changes spec, generation, labels or annotations of any WordPress resource |
| Safety.StatusWriteIsExact | internal/controller/wordpress_controller.go:606-613 | an accepted status write puts exactly the status in memory on the latest stored resource and changes nothing else |
| Safety.CreatedObjectsAreOwned | internal/controller/wordpress_controller.go:217-217 | every object a pass creates carries the controller reference of the resource it read |
| Safety.ControllersArePermanent | internal/controller/wordpress_controller.go:436-443 | over any run an identity keeps its controller, as long as outsiders do not change controllers |
| Safety.OnlyOwnedObjectsAreDeleted | internal/controller/wordpress_controller.go:408-411 | a deleted Ingress or autoscaler was controlled by the resource, unless somebody swapped it between read and delete |
| Safety.OnlyDoomedDataIsDeleted | internal/controller/wordpress_controller.go:558-573 | a deleted claim is the resource's own data claim, nobody's content claim, and the stored resource was being deleted, held the finalizer, said Internal and did not carry `retain-data` with the text "true" |
| Safety.NothingElseIsDeleted | internal/controller/wordpress_controller.go:471-471 | nothing but Ingresses, autoscalers, the data claim and a resource already being deleted is ever removed by a call |
| Deletion.FinalizerOutlivesTheData | internal/controller/wordpress_controller.go:564-586 | when the finalizer goes from a resource stored as Internal whose `retain-data` is absent or says anything but "true", the last call of that very handler before the release was a look-up that found no data claim, or a delete that was accepted or found none, whatever else was stale, failed or lost |
| Deletion.CareReleases | internal/controller/wordpress_controller.go:567-576 | what that call means for the store: the claim gone or marked after the delete, or absent from the store that answered the look-up |
| Lifecycle.QuietDeletion | internal/controller/wordpress_controller.go:555-587 | from any store, an undisturbed pass over a departing resource ends quietly with the finalizer gone; the data claim is gone or marked if the stored mode is Internal and nothing is retained, untouched otherwise; and no third object changes |
| Lifecycle.RetentionFollowsTheAnnotation | internal/controller/wordpress_controller.go:562-573 | with `retain-data` "true" the data claim is untouched in any mode; with the annotation absent or any other text the claim of a resource stored as Internal is gone or marked |
| Lifecycle.EmptyModeKeepsData | internal/controller/wordpress_controller.go:73-76 | a resource stored without a mode, which every other pass treats as Internal, leaves its data claim behind |
| Lifecycle.ModelessLeavesItsData | internal/controller/wordpress_controller.go:564-582 | a store in which it does: after one undisturbed pass the resource is gone and its data claim is as it was |
| Deletion.NothingOfTheResourceRemains | internal/controller/wordpress_controller.go:329-329 | once the resource is gone and garbage is collected, nothing a pass created for it remains, and objects without a controller do |
| Closure.RunReferenceInv | internal/controller/wordpress_controller.go:101-129 | at every moment of every run, all wanted children a pass has gone past are stored |
| Closure.ReferencesAlwaysResolve | internal/controller/resources.go:93-101 | every operator-managed object a created or updated object names -- Service, claim, Deployment, generated Secret, also as root password -- and the password Secret WordPress connects with are stored at that moment and for the rest of the run, though passes may die anywhere |
| StatusCoherence.StatusesStayCoherent | internal/controller/wordpress_controller.go:505-547 | in every store of every run: Ready phase iff Ready condition; Ready only with all of at least one replica ready and the database ready or its Secret gone; no condition type twice |
| StatusCoherence.ReadyImpliesDatabaseIff | internal/controller/wordpress_controller.go:107-113 | over any run, Ready comes with DatabaseReady in every stored status if and only if no effective status write is by a pass that read a Ready resource and found its external Secret missing |
| StatusCoherence.ReadyKeepsItsDatabaseUnless | internal/controller/wordpress_controller.go:189-199 | the same for one pass and any answers: from a status with Ready backed by the database, what is about to be saved is so backed unless, and only unless, the pass is waiting for the Secret and the status read was Ready |
| StatusCoherence.ReadyWithoutDatabase | internal/controller/wordpress_controller.go:189-199 | a run from a store with a Ready external resource and no Secret to one with Ready=True and DatabaseReady=False |
| Footprint.DisjointExactlyUnless | internal/controller/names.go:54-81 | two resources of a namespace may write a common key if and only if one is named like the other plus "-mysql" |
| Footprint.OnlyServicesCollide | internal/controller/names.go:58-61 | the only two different children that can share a key are a site's Service and another resource's database Service |
| Footprint.DataKeyIsPrivate | internal/controller/wordpress_controller.go:565-565 | a data claim's name is no content claim's name and no other resource's data claim's name |
| TwoResources.InterleavingsAgree | internal/controller/wordpress_controller.go:62-141 | every interleaving of two independent passes has the outcome of running one after the other |
| TwoResources.TwoPassesCommute | internal/controller/names.go:54-81 | two resources that neither share a name pattern nor connect with each other's generated Secret can be reconciled in any interleaving and either order with the same result |
| Quiet.QuietPassIs | internal/controller/wordpress_controller.go:100-140 | an undisturbed pass visits every child once, reports, and ends without an error, from any store |
| Quiet.QuietPassIsARun | internal/controller/wordpress_controller.go:62-141 | the undisturbed pass is a run of the adversarial system in which only that pass moves |
| Convergence.OnePassConverges | internal/controller/wordpress_controller.go:115-129 | from any store content, one undisturbed pass makes every managed field what its builder says, removes what is not wanted, and touches nothing else |
| Convergence.SettledPass | internal/controller/wordpress_controller.go:264-268 | over settled children a pass writes its status and nothing else |
| Convergence.SecondPassIsTheLast | internal/controller/wordpress_controller.go:342-350 | children are final after the first pass, status after the second, although each pass draws new passwords |
| Lifecycle.OperatorConverges | internal/controller/database.go:56-79 | the same for the operator's own builders, with arbitrary fresh passwords in each of three passes |
| Lifecycle.TrafficReachesThePods | internal/controller/resources.go:276-281 | after a pass the stored Ingress names the stored Service at its port, and that Service the stored container's port |
| Lifecycle.StatusIsTruthful | internal/controller/wordpress_controller.go:505-546 | the status saved by an undisturbed pass matches the store it leaves: replica counts and database host are the stored Deployment's, and the phase is Ready if and only if all of at least one replica are ready and the database was already serving |
| Lifecycle.ReplicasAfterAPass | internal/controller/resources.go:203-206 | with autoscaling the stored replica count survives a pass if and only if there was none; without, the count the user wrote is back, or one if he wrote none |
| Lifecycle.ChosenCountAndAddedPortAreLost | internal/controller/wordpress_controller.go:342-381 | a store in which one undisturbed pass drops the replica count the autoscaler chose and a Service port somebody added |
| Lifecycle.ToggledChildFollowsTheSpec | internal/controller/wordpress_controller.go:399-413 | after any history, one pass leaves an enabled Ingress or autoscaler present and no live one of the resource's own if disabled |
| Lifecycle.OverwrittenUnlessAgreeing | internal/controller/wordpress_controller.go:436-443 | whoever controls the object at a wanted child's key, a pass leaves it unchanged if and only if its managed fields are as built, and never changes its controller |
| Lifecycle.ForeignIngressIsOverwritten | internal/controller/wordpress_controller.go:436-443 | a store in which another owner's Ingress is turned to the site |
| Lifecycle.IngressConditionLags | internal/controller/wordpress_controller.go:400-404 | the condition of a disabled Ingress is gone after a pass if and only if the Ingress was gone before it or there was no condition |
| Lifecycle.TwoPassesClearTheIngress | internal/controller/wordpress_controller.go:408-411 | two disabled passes clear both the Ingress and its condition if no foreign Ingress is in the way |
| Outcome.SiteIsAsWritten | internal/controller/resources.go:65-208 | from any store and the spec as the user wrote it to the Deployment after a pass: image, pull policy, count, rollout, probes, placement and pod labels; the wait for MySQL in Internal mode only; the content claim mounted at /var/www/html if and only if persistence is on |
| Outcome.EnvironmentIsAsWritten | internal/controller/database.go:224-230 | under every name at all the stored container sees what the user set, else what the operator promises, else nothing: in External mode the user's host, port (3306 if none) and Secret key, in Internal mode the headless Service and the generated Secret |
| Outcome.ServiceIsAsWritten | internal/controller/resources.go:211-238 | the stored Service has the user's type, port and annotations, and the user's node port exactly for type NodePort |
| Outcome.IngressIsAsWritten | internal/controller/resources.go:265-313 | the stored Ingress serves the user's host and class, with TLS for that host if and only if a Secret is named |
| Outcome.AutoscalerIsAsWritten | internal/controller/resources.go:316-348 | the stored autoscaler has the user's minimum, maximum and CPU target, each with its default, and the bounds do not cross |
| Outcome.SecretIsAsWritten | internal/controller/database.go:56-79 | an existing credentials Secret is untouched; a new one holds the four entries, each password under its own key |
| Outcome.HeadlessIsAsWritten | internal/controller/database.go:82-106 | the stored headless Service, with cluster IP None from its creation |
| Outcome.MySQLIsAsWritten | internal/controller/database.go:109-222 | image, placement and probes of MySQL, what its container sees under every name, its data directory on the claim template, and the storage asked for at creation |
| Outcome.ClaimIsAsWritten | internal/controller/resources.go:241-262 | an existing content claim is untouched; a new one has the user's size, access modes and storage class |
| Outcome.UnaskedIsLeftAlone | internal/controller/wordpress_controller.go:182-210 | in External mode the MySQL objects, and without persistence the content claim, stay as they were; a disabled Ingress or autoscaler of the resource does not stay |
| Reporting.UrlIsTruthful | internal/controller/wordpress_controller.go:633-645 | the saved URL is the user's; else the host of the stored Ingress, https if and only if that Ingress has TLS for that host; else empty |
| Reporting.HostIsTruthful | internal/controller/wordpress_controller.go:318-319 | the saved database host is the user's in External mode and the headless Service's in Internal mode |
| Reporting.ConditionsAreTruthful | internal/controller/wordpress_controller.go:496-546 | phase, delay and every condition with its reason, read off the store: external or ready MySQL, all or so many replicas, Ingress found or created; other conditions are kept |
| Reporting.ReportFollowsTheAnswer | internal/controller/wordpress_controller.go:499-536 | in any pass the report's counts, phase and DeploymentReady follow the Deployment as it was read, an absent one counting as zero |
| Reporting.RejectedIsReported | internal/controller/wordpress_controller.go:92-98 | a rejected spec is saved as Failed with Ready=False and the complaint; nothing else of the status, and no other object, changes |
| Reporting.MissingSecretIsReported | internal/controller/wordpress_controller.go:191-202 | without its Secret an External resource gets DatabaseReady=False naming it and nothing else: phase, Ready condition and all other objects stay; 30 seconds |
| Reporting.AdmissionIsExact | internal/controller/wordpress_controller.go:78-85 | a new resource gets the finalizer after those it has and nothing else; an absent or released one is left alone |
| Generation.ObservedIsEarned | internal/controller/wordpress_controller.go:505-507 | a saved report carries the generation of the resource the pass read first, and every child that generation asks for was handled since; other saves keep the observed generation found |
| History.StoredReportsAreEarned | internal/controller/wordpress_controller.go:496-546 | in any run, a status write that takes effect stores the generation of the resource its pass read first only after the pass heard that every child this generation asks for is in place; any other write stores the observed generation the pass had read |
| Observation.ObservedNeverExceedsIff | internal/controller/wordpress_controller.go:604-614 | over any run, names reused or not, the observed generation stays within the generation in every store if and only if every effective status write lands on the identity its pass read or on a resource that has reached the generation written |
| Observation.WriteKeepsTheBoundIff | internal/controller/wordpress_controller.go:607-612 | the same for one write: it keeps the bound if and only if the stored identity is the one the pass read, which the code does not compare, or the stored generation has been reached |
| Observation.ObservedNeverDecreasesIff | internal/controller/wordpress_controller.go:507-507 | with fresh reads and no overlapping passes for one resource, no identity is ever observed less far than before, if and only if every effective status write lands on the identity read or on one observed no further |
| Observation.ReusedNameBreaksTheBound | internal/controller/wordpress_controller.go:604-614 | a run from a store with one resource at generation 3, observed at 2, whose ingress lacks a host: with everybody else keeping the promises, a resource created anew under the old name is marked as observed at a generation it never had |
| OnePass.EveryPassEnds | internal/controller/wordpress_controller.go:606-606 | whatever the answers, a pass ends within 28 calls, retries included |
| OnePass.GivesUpExactlyIf | internal/controller/wordpress_controller.go:616-624 | a pass ends with no error and no delay if and only if one of its answers was a reason to: absent, released, just admitted, rejected, conflict swallowed, or Ready saved |
| OnePass.GivesUpOnlyWhenReady | internal/controller/wordpress_controller.go:136-140 | for a live, valid, admitted resource and no conflict, a quiet end means a saved Ready status, and conversely |
| OnePass.QuietWithoutWork | internal/controller/wordpress_controller.go:67-98 | the quiet ends that do no work, from the first answer alone |
| OnePass.ExternalModeLeavesMySQLAlone | internal/controller/wordpress_controller.go:182-210 | over any run no call of an External-mode pass changes its Secret, headless Service or StatefulSet |
| OnePass.MissingSecretStopsThePass | internal/controller/wordpress_controller.go:107-113 | a pass over a live, valid External resource asks for the Secret the user names; if that is missing, then whatever the further answers, it only reads the resource and writes a status whose one news is DatabaseReady=False with that name, until it ends and asks to be run again in 30 seconds |
| OnePass.FailureStopsThePass | internal/controller/wordpress_controller.go:100-134 | a refused call, other than a look-up that finds nothing, ends the work of a pass: only the database helper still saves the status it has, and the error returned is the refused call's own, conflicts being hidden except by the first read, the admission and the clean-up |
| OnePass.FailedBuilderStopsThePass | internal/controller/wordpress_controller.go:212-216 | without random bytes in Internal mode, or with a claim size that does not parse in External mode, a valid resource's pass makes no call for that child and ends with an error |
| OnePass.CleanUpGoesOn | internal/controller/wordpress_controller.go:567-586 | for every answer to each call of the clean-up: it looks for the data claim, deletes what it found, goes on to the release if the claim was not there, was deleted, or was gone by then, and the release's own error is returned unless it is a conflict |
| OnePass.SavedWithinFiveAttempts | internal/controller/wordpress_controller.go:604-624 | a status survives four conflicts and not five, at reads or writes; any other error stops at once; and the result that follows each of the four reasons for saving |
| Wiring.InternalDatabaseIsWired | internal/controller/database.go:137-150 | WordPress and MySQL read one key of one Secret, which the generated Secret contains, and so for the root password unless the spec names another; the claim deleted later is the claim template's |
| Wiring.ConnectionIsWired | internal/controller/resources.go:126-135 | unless user variables interfere, the container's WORDPRESS_DB_HOST and the wait command name the host and port of the headless Service, and both sides name the same database and user |
| Wiring.TrafficIsWired | internal/controller/resources.go:326-330 | ports, names and selectors agree across the six builders that share them |
| Wiring.OperatorVariablesTakeEffect | internal/controller/resources.go:75-88 | under last-one-wins lookup an operator variable takes effect if and only if the user's variables do not define its name differently |
| Wiring.BuilderIsSound | internal/controller/wordpress_controller.go:233-245 | every builder's object has its child's kind and the resource's controller reference; only three builders can fail |
| Wiring.BuilderIsLinked | internal/controller/resources.go:35-62 | every operator-managed object a built object names is an earlier child of the same resource, and the password Secret is the generated or the external one according to the mode |
| Wiring.BuildRefersExactly | internal/controller/resources.go:93-101 | references are complete as well as sound: Deployment, StatefulSet, Ingress and autoscaler name exactly the claim, Secrets, Services and Deployment they should |
| Builders.DecimalReads | internal/controller/resources.go:76-76 | a port written in decimal reads as the same number again |
| Defaulting.DefaultedTwice | internal/controller/defaults.go:27-100 | defaulting is idempotent |
| Defaulting.ValidExactlyIf | internal/controller/wordpress_controller.go:144-173 | which specs, as the user wrote them, pass validation after defaulting, both directions |
| Defaulting.RejectedExactlyFor | internal/controller/wordpress_controller.go:144-173 | which complaint a rejected spec gets: the first thing wrong with it as the user wrote it, both directions |
| Defaulting.DefaultingOnlyFills | internal/controller/defaults.go:27-100 | field by field, what the user gave is kept, what he left empty becomes the literal default, and unused sections and all other fields are untouched |
| Defaulting.ValidSpecsBuild | internal/controller/database.go:110-114 | a valid spec has every section a builder dereferences, and builders fail only for random bytes or quantities |
| Defaulting.SchemaDefaultsChangeNothing | api/v1alpha1/wordpress_types.go:239-289 | any selection of schema defaults before code defaults leaves verdict, URL and children as code defaults alone would |
| Defaulting.SchemaPersistenceMatters | api/v1alpha1/wordpress_types.go:191-196 | the one schema default that does make a difference |
| DeepCopy.SpecDeepCopyInto | api/v1alpha1/zz_generated.deepcopy.go:280-348 | the target has the source's content, nil parts included, and everything it points to is new |
| DeepCopy.SpecDeepCopy | api/v1alpha1/zz_generated.deepcopy.go:351-358 | nil for nil; otherwise a new spec with the same content that shares nothing |
| DeepCopy.CopySharesNothing | api/v1alpha1/zz_generated.deepcopy.go:280-348 | no object that existed before the copy is reachable from it |
| DeepCopy.DatabaseStruct.DeepCopied | api/v1alpha1/zz_generated.deepcopy.go:46-58 | the two nested pointers are followed and what they point to is copied, not shared |
| DeepCopy.InternalStruct.DeepCopied | api/v1alpha1/zz_generated.deepcopy.go:114-146 | five nil-able parts keep content and nil-ness and become new, and so do the maps and the list in the resource requirements and what affinity points to |
| DeepCopy.IngressStruct.DeepCopied | api/v1alpha1/zz_generated.deepcopy.go:87-101 | class name and annotations keep content and nil-ness and become new |
| DeepCopy.PersistenceStruct.DeepCopied | api/v1alpha1/zz_generated.deepcopy.go:159-171 | storage class and access modes keep content and nil-ness and become new |
| DeepCopy.ExposureStruct.DeepCopied | api/v1alpha1/zz_generated.deepcopy.go:199-208 | annotations keep content and nil-ness and become new |
| DeepCopy.StatusDeepCopyInto | api/v1alpha1/zz_generated.deepcopy.go:361-370 | the target's status has the source's content and a condition list of its own |
| DeepCopy.StatusDeepCopy | api/v1alpha1/zz_generated.deepcopy.go:373-380 | nil for nil; otherwise a new status with the same content and its own conditions |
| DeepCopy.CopyDict | api/v1alpha1/zz_generated.deepcopy.go:94-100 | a map copied key by key, in any order, has the same entries |

## Left out

- Defaulting by the API server of the objects it stores, JSON encoding (so nil and empty collections do not collapse), and allocation of cluster IPs and node ports; the store keeps what it is sent.
- Watches, the work queue and the predicate on generations: every pass may start at any time, and nothing says that one will.
- Events, logs, contexts and time. Delays are numbers of seconds; transition times of conditions are not kept.
- The text of messages. A condition carries its reason and the values that go into its message.
- Parsing of quantities, random bytes and base64: a finite map of texts that parse, and two drawn passwords or a failure, are parameters of the builders.
- Integer widths. No code in scope does arithmetic on the 32-bit fields it carries.
- DeepCopy.SpecDeepCopyInto: the elements of variables, tolerations and conditions, and the terms below the three pointers of an affinity, are values; their inner pointers are copied by methods of the Kubernetes libraries, which are not part of this model.
- DeepCopy.SpecDeepCopy: the same.
- DeepCopy.CopySharesNothing: the same.
- DeepCopy.InternalStruct.DeepCopied: the same, for the terms of its affinity.
- The deep copies of the list type and of object metadata, which add nothing to those of spec and status.
- Scheme registration, setting a controller reference on an object of another namespace, and other failures of building a request: they cannot occur for children in the resource's own namespace.
- cmd/main.go, packaging, RBAC and the end-to-end suite.
- Safety.OnlyOwnedObjectsAreDeleted: a delete names a key and not an identity, as in the code, so an object put in place of the one that was read can be deleted; the claim is about the identity that was read.
- Closure.ReferencesAlwaysResolve: Secrets that only the user knows -- for TLS, for a root password of his own, in variables of his own -- are not checked by the operator and may be missing.
- Convergence.OnePassConverges: an Ingress or autoscaler that carries finalizers of its own is marked for deletion and not yet gone.
