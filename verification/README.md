# A verified model of osb-broker-go

This project models the broker's lifecycle engine, its request handlers, its state stores and
four smaller algorithms in Dafny, and proves what the repository promises about them. The
methods follow the Go code branch by branch; each is proved equal to a specification function
over the whole state, and the theorems are about those functions.

## The model in the system's own terms

**The cluster** (`Api`) is a map from object key (apiVersion, kind, namespace, name) to object
(labels, annotations, top-level fields, status, uid, resourceVersion). Before each call of the
broker the environment does something: nothing, a failure of that call, a status write by an
operator, or the creation of an object by somebody else. An environment is an arbitrary function from call numbers to such acts, so a theorem
over all environments covers every pattern of failures and restarts. A call that reports failure
has had no effect. **The registry** of instance records (`Registry`) and **the store of bindings**
(`Bindings`) fail independently, by oracles of their own. Templates, YAML, SHA-256 and semantic
versions are uninterpreted parameters (`Codec`, hash functions of fixed output length).

**The engine** (`Operator`, `Render`, `Engine`) provisions, updates, deprovisions and reconciles.
`ProvisionProofs`, `DeprovisionProofs`, `UpdateProofs`, `ReconcileProofs` and `ReconcileOutcomes` say what one operation
does under every failure, where the broker is alone in creating objects; `Strangers` says what applying
means where it is not, `Retries` how much interference the loops stand, and `Templates` what a template is given and what
becomes of its text. **The handlers** (`Broker`) turn requests into engine calls; `Answers` and `Secrets` say which answer each
request gets and what becomes of projected Secrets; `Protocol`
says what holds along every run of requests, restarts with changed definitions and reconcile steps,
and `RunInvariants` carries one invariant through all runs: every record is the left-to-right overlay
of the parameter sets that were accepted for it, allowed in the plan as loaded at the last render, and
every object under a broker name is named by one record or is nobody's. `RunGuarantees` draws the
conclusions: an object becomes nobody's through a retaining deprovision alone, stays so only until a record
names it again, and the answers tell when objects carry the record's rendering. `Namespaces` says in which namespace an instance's
requests work over a run, with or without one on record, and `PatchProofs` what an accepted PATCH means when the
engine cannot read the record again. What the runs assume is
written out in `RunInvariants.Disciplined` and `RunInvariants.Disjoint`: the registry and the bindings can be
read, a PATCH or DELETE names the instance's own service or none, changed definitions keep the object names
(which depend on service, id and namespace only), object names of different instances are disjoint, and a
rollback that was needed worked.

**The state stores.** `StateStore` is the plain map. `CrdStore` keeps each record in a custom resource
with a derived name, a label index, and the credentials in a Secret beside it. `CrdProofs` says what the
resources stand for after every sequence of operations with any calls failing: a `Mirror` of instances,
bindings and Secrets, in which a write of a binding is two halves and a failure has done none or the first.
From it follows that the store refines the plain map, over ids on which `resourceName` is injective, up to
the JSON normal form that a round trip through the API gives; the one exception is reading a binding whose
last write was broken off half way. `BothStores` runs the same operations against both stores, as the
repository's contract test does. `CrdListing` has the label index, which needs no such assumption, and the
listing. `CrdProgress` adds that with no call failing every operation is answered, and that the records
determine the resources. `CredentialProofs` lets the environment also collect garbage and delete binding
resources by hand, and says what happens to credentials then. `Interleaving` lets any number of the
get-then-write loops take turns, call by call, on one object, and `LoneLoops` proves that each of these
loops, with its failures and strangers, is the sequential loop of the store and of the operator client.
`DeepCopies` has maps and slices as heap objects and proves that the memory store shares none with its
callers.

**The smaller parts** are names (`Names`), document splitting (`Manifests`), JSON comparison (`Json`),
quantities and limits (`Quantity`, `Quantities`, `Limits`, `Validation`, `Definition`), the migration of the old state
ConfigMap (`Migration`, `MigrationProofs`, `MigratedRecords`) and certificate rotation (`CertReload`).

## Where code and documentation part

The model follows the code. Each of these is a lemma with the failing case, and where there is one, the exact
condition under which the promise holds.

- `internal/definition/render.go:148-150` says no returned document carries a leading `---`. Some document does if and
  only if the text, or what follows one of its separators, is white space and three dashes
  (`Manifests.LeadingDashesSurviveIff`): a manifest that opens with a separator line
  (`Manifests.LeadingSeparatorSurvives`), or a separator of six dashes (`Manifests.LongSeparatorSurvives`).
- A registry read that fails is treated as "no record" (`internal/definition/engine.go:72-77`). A deprovision then
  deletes one conventionally named object, forgets the record and reports success
  (`DeprovisionProofs.FailedReadLeaks`); a success can be believed exactly under
  `DeprovisionProofs.SuccessRemovesEverythingIff`. A reconcile applies what the plan alone renders, without the user's
  parameters, and reports "applied" (`ReconcileProofs.FailedReadDropsUserParameters`); the report can be believed
  exactly under `ReconcileProofs.AppliedMeansConfiguredIff`.
- A PATCH reads the record twice, in the handler and in the engine. When the second read fails it can be answered 200
  although nothing is recorded and the objects are rewritten from the sent parameters alone
  (`PatchProofs.UnreadPatchDropsStoredParameters`); the answer can be believed exactly under
  `PatchProofs.AcceptedPatchIsRecordedIff` and `PatchProofs.AcceptedPatchIsAppliedIff`.
- An instance without a namespace on record, as the migration leaves it, moves when a PATCH replaces its references by
  ones that begin elsewhere (`Namespaces.PinnedManifestMovesTheInstance`, exactly when: `Namespaces.NamespaceSurvivesIff`,
  `Namespaces.CalmPatchMovesIff`). One with a namespace never does.
- A create that finds the object already there is reported as success, and nothing is written
  (`Strangers.BeatenIsReportedAsSuccess`, exactly when: `Strangers.SuccessCarriesIff`).
- Rolling a provision back deletes by name, also what had been there before
  (`ProvisionProofs.FailedRecordDestroysWhatWasThere`, exactly when: `ProvisionProofs.RollbackRestoresIffNothingWasThere`).
- A retained instance whose record is gone loses its conventionally named object when the engine is asked again
  (`DeprovisionProofs.AskedAgainTheEngineDeletes`, exactly when: `DeprovisionProofs.UnrecordedAttemptDeletesIff`). The
  handler answers 410 before that (`Protocol.UnrecordedInstanceIsGone`), so it takes a second read that fails.
- A DELETE with a ready binding is refused exactly when the bindings can be listed
  (`Protocol.GuardHoldsIffListable`, `Protocol.UnlistableBindingDoesNotGuard`).
- `SanitizeInstanceName` is not injective; which ids collide is `Names.SanitizedNamesCollideIff`.
- The published schema and the broker disagree on numbers given as text and on numeric enumerations, among others
  (`Limits.SchemaAndBrokerDisagreeOutside`); `Limits.PropertySchemaAgreesIff` has the values on which they agree.
- A write of a binding that broke off before its Secret is read with whatever that Secret held before, so with its own
  credentials only if they stood there already (`CredentialProofs.BrokenOffPutIsRead`). After a deletion that broke off
  likewise these are the deleted binding's (`CredentialProofs.StaleCredentials`), and a bind handler that finds the
  record answers with them.

## Model

| member | source | states |
|---|---|---|
| Engine.Engine.ProvisionDefinition | internal/definition/engine.go:224-273 | the engine's provision, call by call, is the state transformer all provision theorems are about |
| Engine.Engine.RollbackPartialProvision | internal/definition/engine.go:282-290 | cleaning up keeps the first failure as the reported one |
| ProvisionProofs.ProvisionIsFailureAtomic | internal/definition/engine.go:234-290 | whatever call fails: no record is written, only objects of the applied prefix can differ, all of them gone if cleanup worked and a suffix left if not, and the reported cause is the error of the first call that failed |
| ProvisionProofs.ApplyStopsAtTheFirstFailure | internal/definition/operator.go:216-260 | a failed apply got exactly as far as the first document whose own application fails, and reports that document's error |
| ProvisionProofs.RollbackTakesBack | internal/definition/engine.go:282-290 | cleanup removes a prefix of what was applied, all of it unless it says so |
| ProvisionProofs.RollbackRestoresIffNothingWasThere | internal/definition/engine.go:275-290 | a cleaned-up failure restores the cluster if and only if nothing of the applied prefix existed before |
| ProvisionProofs.FailedRecordDestroysWhatWasThere | internal/definition/engine.go:262-290 | in an undisturbed cluster a failed record write alone makes the provision delete an object that was there before |
| ProvisionProofs.ProvisionSucceeds | internal/definition/engine.go:224-273 | on success the plan was known, the parameters allowed, exactly one record changed, and every object carries its document |
| Templates.ProvisionedObjectsAreRendered | internal/definition/render.go:98-148 | the objects of a successful provision come, document by document, from the template's text for a dot with the id, its sanitized form, the user's parameters, and under `.plan` the user's value of every key they set and the plan's of every other; record and objects name them in order |
| Templates.SentValueEndsUpOnTheObject | internal/definition/render.go:135-148 | with a template that prints one key, the value sent is on the object, whatever the plan says |
| Engine.Engine.UpdateDefinition | internal/definition/update.go:27-103 | the engine's update, call by call, is the state transformer of the update theorems |
| UpdateProofs.UpdateEffect | internal/definition/update.go:27-103 | an update refuses without touching anything, or touches only the manifest's objects; the record changes only on success and then every object carries the rendering |
| Templates.UpdatedObjectsAreRendered | internal/definition/update.go:47-61 | a successful update has put the sent parameters over the stored ones and rendered the template with these over the plan's |
| Templates.PatchedValueEndsUpOnTheObject | internal/definition/render.go:135-148 | with a template that prints one key, the value a PATCH sends is on the object, whatever was stored |
| UpdateProofs.RetryRepairsFailedUpdate | internal/definition/update.go:73-103 | after any failed update one undisturbed repetition reaches the state the first was meant to reach |
| UpdateProofs.RepeatedUpdateIsFree | internal/definition/update.go:66-103 | repeating a successful PATCH, whatever statuses were written since, writes no object and leaves the record equal |
| UpdateProofs.AppliedIsUpToDate | internal/definition/operator.go:216-287 | after a successful apply of a non-empty manifest with distinct keys the comparison says up to date |
| UpdateProofs.CalmUpdateSucceeds | internal/definition/update.go:27-103 | an undisturbed update that can be served succeeds |
| Engine.Engine.DeprovisionInstance | internal/definition/engine.go:295-335 | the engine's deprovision, call by call, for all three ways of finding the objects |
| Engine.Engine.RetainableRefs | internal/definition/engine.go:351-369 | which references stand for an instance: recorded ones, recorded names, or the conventional name |
| DeprovisionProofs.AttemptEffect | internal/definition/engine.go:314-346 | success means every object and the record are gone; failure means the record still names what is left, and a failure of the record alone that no object is |
| DeprovisionProofs.DeprovisionConverges | internal/definition/engine.go:314-346 | for a plan that does not keep its objects, or is gone: any number of failed attempts followed by one undisturbed attempt ends where a single undisturbed attempt ends |
| DeprovisionProofs.PlanDecides | internal/definition/retain.go:38-47 | with distinct plan ids objects are kept when the instance's plan says `retainOnDeprovision`, and given up when it does not, or there is no such plan |
| DeprovisionProofs.UnkeptInstanceIsDeleted | internal/definition/engine.go:295-335 | from the definition alone: an undisturbed deprovision of an instance whose plan does not keep its objects leaves none of them and no record |
| DeprovisionProofs.ObjectsAre | internal/definition/engine.go:320-369 | which objects these are: the references in their own or the instance's namespace, or else the recorded names, or else the conventional one, in the provisioned kind |
| DeprovisionProofs.CalmAttemptSucceeds | internal/definition/operator.go:304-326 | an undisturbed attempt succeeds, also when objects are already missing |
| DeprovisionProofs.FailedReadLeaks | internal/definition/engine.go:298-332 | with a failed registry read a recorded object is left behind and success reported |
| DeprovisionProofs.SuccessRemovesEverythingIff | internal/definition/engine.go:296-335 | a reported success has removed every object if and only if the read worked or only the conventional object was there |
| DeprovisionProofs.RetainingAttemptEffect | internal/definition/engine.go:303-312 | a retaining attempt deletes nothing, merges at most two labels, and forgets the record even when labelling fails |
| DeprovisionProofs.RetainingRunKeepsEverything | internal/definition/engine.go:303-312 | when the instance's plan keeps its objects, no run of attempts loses an object, a field or a foreign label |
| DeprovisionProofs.KeptInstanceIsMarked | internal/definition/retain.go:18-75 | one attempt keeps every object and, once reported done, each carries the instance's id and the time under the two labels |
| DeprovisionProofs.UnrecordedAttemptDeletesIff | internal/definition/engine.go:295-346 | an attempt with no record in hand loses an object if and only if it is the conventionally named one, its version parses and the delete call goes through |
| DeprovisionProofs.AskedAgainTheEngineDeletes | internal/definition/engine.go:295-335 | without the record the plan's retention is unknown and the conventional object is deleted |
| DeprovisionProofs.LabelAllFrame | internal/definition/retain.go:55-75 | labelling stays within the listed objects, creates and deletes nothing |
| Engine.Engine.ObjectsPresent | internal/definition/reconcile.go:105-117 | looks until the first object found or the first failed read |
| Engine.Engine.ReconcileInstance | internal/definition/reconcile.go:53-96 | reconcile, call by call, with its five outcomes |
| ReconcileOutcomes.UnresolvableIff | internal/definition/reconcile.go:53-69 | unresolvable if and only if the record lacks id or namespace, or its service or plan is not in the definitions in force |
| ReconcileOutcomes.UpToDateMeansCarried | internal/definition/reconcile.go:81-89 | whatever fails, up-to-date is said only of objects that carry what the definition in force renders of the stored parameters |
| ReconcileOutcomes.CalmReconcileRepairs | internal/definition/reconcile.go:70-96 | undisturbed: objects missing when none is left, up to date and nothing written when the rendering is carried, and otherwise applied with the rendering carried afterwards |
| ReconcileOutcomes.CarriesMeans | internal/definition/update.go:110-124 | carried means the same labels and, for every field the document names, the same JSON |
| ReconcileProofs.ReconcileIsCareful | internal/definition/reconcile.go:53-117 | for any record and any failures: never deletes, creates only beside an object still there, writes nothing when up to date, unresolvable or all objects are missing |
| ReconcileProofs.ReconcileKeepsTheConfiguration | internal/definition/reconcile.go:53-96 | stored plan and parameters stay, no other record changes, and "applied" means brought to the definition in force |
| ReconcileProofs.UpdateLosesNothing | internal/definition/update.go:27-103 | no update deletes an object |
| ReconcileProofs.AppliedMeansConfiguredIff | internal/definition/reconcile.go:53-96 | in a calm cluster a reported "applied" means the user's rendering is there if and only if the read inside the update worked, or the plan's own rendering had to be written and carries the user's along |
| ReconcileProofs.ConvergedCarries | internal/definition/update.go:66-103 | what comparing with, and if need be applying, one manifest leaves of another over the same objects |
| ReconcileProofs.FailedReadDropsUserParameters | internal/definition/reconcile.go:53-96 | when the registry read inside the update fails and the plan alone renders some label or field differently, "applied" is reported and the user's rendering is missing |
| PatchProofs.UnreadPatchRecordsNothing | internal/definition/update.go:27-103 | a PATCH whose second registry read fails never changes a record, whatever it answers |
| PatchProofs.AcceptedPatchIsRecordedIff | internal/handlers/service_instances.go:215-308 | an accepted PATCH is on record if and only if the second read worked, or the record said so before |
| PatchProofs.AcceptedPatchIsAppliedIff | internal/handlers/service_instances.go:215-308 | in a calm cluster the objects carry what an accepted PATCH asked for if and only if the second read worked, or the sent parameters alone come to the same |
| PatchProofs.UnreadPatchDropsStoredParameters | internal/definition/update.go:28-57 | the failing case: 200, objects rewritten without the stored parameters, record unchanged |
| Engine.Engine.constructor | internal/definition/engine.go:81-88 | the definitions are indexed by offering id, the last one winning |
| Operator.DecodeManifests | internal/definition/operator.go:179-202 | all documents decode, in order, or none is used |
| Operator.OperatorClient.ApplyManifestRefs | internal/definition/operator.go:216-260 | documents are applied in order until one fails, reporting the references reached |
| Operator.OperatorClient.ApplyDoc | internal/definition/operator.go:229-248 | the get-create-update loop with five attempts on conflict |
| OperatorProofs.ApplyOneEffect | internal/definition/operator.go:229-248 | where nobody else creates objects, applying changes at most that object; success means it carries the document, failure that nothing changed |
| Strangers.ApplyOneIsOneWrite | internal/definition/operator.go:229-248 | with others creating objects too, applying a document is one write at its last call on top of all they have done, or none: when it fails, and when somebody else created the object just before that call |
| Strangers.SuccessCarriesIff | internal/definition/operator.go:229-248 | a success carries the document if and only if nobody else created the object just before the broker would have, or what they created carries it |
| Strangers.BeatenIsReportedAsSuccess | internal/definition/operator.go:236-239 | the failing case: the object of somebody else stays as it is and success is reported |
| Strangers.AppliedOrTheirs | internal/definition/operator.go:216-260 | after a manifest was applied without an error each object carries its document, or is what somebody else created there meanwhile |
| OperatorProofs.ApplyAllEffect | internal/definition/operator.go:216-260 | a prefix of the manifest is applied, nothing else touched, every object of the prefix carries its document |
| OperatorProofs.ApplyAllStores | internal/definition/operator.go:216-260 | a manifest that had to be written is there word for word, not merely carried |
| OperatorProofs.CalmApplySucceeds | internal/definition/operator.go:216-260 | undisturbed, every reachable document is applied |
| Retries.ApplySurvivesFourConflicts | internal/definition/operator.go:222-250 | an apply succeeds although others come in between before any of its first eight calls, and makes at most ten |
| Retries.LabelSurvivesFourConflicts | internal/definition/operator.go:404-425 | so does labelling an object that is there |
| Operator.OperatorClient.ManifestsUpToDate | internal/definition/operator.go:268-287 | compares until the first difference or failed read; an empty manifest is never up to date |
| OperatorProofs.UpToDateIsReadOnlyAndSound | internal/definition/operator.go:268-287 | comparing writes nothing and "up to date" implies every document is carried |
| OperatorProofs.UpToDateIsComplete | internal/definition/operator.go:268-287 | undisturbed, "up to date" holds exactly when every document is carried |
| Operator.OperatorClient.DeleteManifestRefs | internal/definition/operator.go:304-326 | deletes in order, tolerating missing objects, until one deletion fails |
| OperatorProofs.DeleteAllEffect | internal/definition/operator.go:304-326 | a prefix of the references is gone and nothing else changed; without an error all are gone |
| Operator.OperatorClient.LabelCR | internal/definition/operator.go:404-425 | read, merge labels, write back, five attempts on conflict |
| OperatorProofs.LabelOneEffect | internal/definition/operator.go:404-425 | success has merged the labels into what was there; failure has changed nothing |
| Operator.OperatorClient.MarkRetained | internal/definition/retain.go:55-75 | every object is tried and the failures are collected |
| OperatorProofs.LabelAllEffect | internal/definition/retain.go:55-75 | every object stays with all its labels, and those not reported as failed carry the new ones |
| Operator.MapsEqual | internal/definition/update.go:127-137 | decides equality of label maps |
| Operator.CrMatchesRendered | internal/definition/update.go:110-124 | decides whether labels agree and every field the document names has its value |
| Render.OverlayMaps | internal/definition/render.go:98-110 | the sent keys win, the result is a map of its own and neither argument is written |
| Render.OverlayLaws | internal/definition/render.go:98-110 | overlaying is associative and idempotent |
| Json.ValuesEqualDecidesSameJson | internal/definition/update.go:139-162 | normalising and comparing decides structural sameness with numbers compared by value |
| Json.ValuesEqualIsAnEquivalence | internal/definition/update.go:139-162 | an equivalence on what can be encoded, identifying the integer and the float form of a number |
| Json.NormalIsIdempotent | internal/definition/update.go:152-162 | normal forms are fixed points |
| Json.ServedIsTheSameJson | internal/definition/update.go:105-109 | numbers the API server hands back in another form compare equal to what was sent |
| Broker.Handlers.ProvisionServiceInstance | internal/handlers/service_instances.go:21-126 | the PUT handler as a request step |
| Broker.Handlers.DeprovisionServiceInstance | internal/handlers/service_instances.go:129-180 | the DELETE handler as a request step |
| Broker.Handlers.DeprovisionKnown | internal/handlers/service_instances.go:155-180 | its part after record and definition are found: the binding guard, the namespace, the engine |
| Broker.Handlers.UpdateServiceInstance | internal/handlers/service_instances.go:183-213 | the PATCH handler as a request step, up to the record |
| Broker.Handlers.UpdateKnown | internal/handlers/service_instances.go:215-308 | its part after record and definition are found: plan change, maintenance info, parameters, engine |
| Broker.Handlers.BindServiceInstance | internal/handlers/service_bindings.go:11-86 | the bind handler as a request step |
| Broker.Handlers.UnbindServiceInstance | internal/handlers/service_bindings.go:89-131 | the unbind handler as a request step |
| Protocol.KnownPutChangesNothing | internal/handlers/service_instances.go:55-66 | a PUT on a known id changes no state, and is 200 only for the same service, plan and parameters |
| Answers.PutAnswer | internal/handlers/service_instances.go:21-126 | how a complete PUT is answered, check by check: when 422 for the version, 200 or 409 on a known instance, 422 to a caller that cannot wait, 500 without a usable namespace |
| Answers.IncompletePutIsRefused | internal/handlers/service_instances.go:24-47 | 400 if and only if service or plan are not named; a service or plan not in the catalogue is told so |
| Answers.CalmPutIsAccepted | internal/handlers/service_instances.go:68-126 | an undisturbed PUT that passes the checks is 202 and puts the instance on record as it was asked for |
| Protocol.ProvisionCase | internal/handlers/service_instances.go:21-126 | every PUT changes nothing or provisions an unknown id in the namespace resolved for it |
| Protocol.DeprovisionCase | internal/handlers/service_instances.go:129-180 | every DELETE changes nothing or deprovisions an unguarded instance in its recorded namespace |
| Answers.DeleteAnswer | internal/handlers/service_instances.go:129-180 | a DELETE of a known instance is 409 if and only if the bindings can be listed and a ready one is the instance's, and otherwise the engine's deprovision and its answer |
| Answers.UnboundInstanceIsDeleted | internal/handlers/service_instances.go:155-180 | undisturbed and without a ready binding it is 200, with record and objects gone |
| Answers.UnboundInstanceIsRetained | internal/handlers/service_instances.go:155-180 | or, of a plan that keeps them, the record gone and every object kept, and 200 when all are there to be marked |
| Answers.ServiceNotInTheCatalogue | internal/handlers/service_instances.go:149-153 | a DELETE or PATCH for a service not in the catalogue is told so and changes nothing |
| Protocol.UnrecordedInstanceIsGone | internal/handlers/service_instances.go:129-153 | a DELETE of an id that is not on record is answered 410 and never reaches the engine |
| Protocol.UpdateCase | internal/handlers/service_instances.go:183-308 | every PATCH changes nothing or updates a recorded instance with an admissible plan change |
| Answers.PatchAnswer | internal/handlers/service_instances.go:215-308 | a PATCH is 422 if and only if it leaves a plan that may not be left, or names another version than the plan it ends up on states |
| Answers.PlanChangeMeans | internal/definition/definition.go:181-203 | a plan may be left when it says so, or says nothing and the offering does |
| Answers.UnknownPatchIsNotFound | internal/handlers/service_instances.go:183-205 | 404 if and only if the instance is not on record |
| Protocol.BindCase | internal/handlers/service_bindings.go:11-86 | a bind leaves records and cluster alone and stores at most its own binding |
| Secrets.BindAnswer | internal/handlers/service_bindings.go:37-86 | how a complete bind is answered; what is answered, stored and projected are the same credentials, under the instance's namespace |
| Secrets.IncompleteBindIsRefused | internal/handlers/service_bindings.go:15-34 | 400 if and only if service or plan are not named; a service not in the catalogue is told so |
| Secrets.BrokenBindLeavesAtMostItsSecret | internal/handlers/service_bindings.go:57-82 | a bind touches no Secret but its own |
| Protocol.UnbindCase | internal/handlers/service_bindings.go:89-131 | an unbind leaves records and cluster alone and removes at most its own binding |
| Secrets.UnbindAnswer | internal/handlers/service_bindings.go:89-131 | 200 once the projected Secret and the record are gone; 410 if and only if the binding is unknown; otherwise the record is there to try again |
| Secrets.CalmBindingsSucceed | internal/handlers/service_bindings.go:11-131 | an undisturbed bind of a new id is 201, an undisturbed unbind 200 |
| Secrets.SecretStaysWithItsBinding | internal/handlers/service_bindings.go:57-61 | through any run no step but its own unbind touches the Secret of a stored binding |
| Secrets.UnbindTakesTheSecretBack | internal/handlers/service_bindings.go:107-119 | what a bind projected is there word for word until its unbind, which takes it away |
| Protocol.InstanceStays | internal/handlers/service_instances.go:155-180 | only an unguarded deprovision of its own removes a recorded instance; offering and namespace never change |
| Protocol.StoredBindingStays | internal/handlers/service_bindings.go:89-131 | no step but its own unbind touches a stored binding |
| Protocol.RepeatedBindsReturnTheFirstCredentials | internal/handlers/service_bindings.go:37-82 | through any run until its unbind, every later bind answers with the first credentials and changes nothing |
| Protocol.BoundInstanceStays | internal/handlers/service_instances.go:160-172 | while a ready binding is stored and listable no run removes its instance |
| Namespaces.NamespaceIsFixedAtProvision | internal/handlers/definition_instances.go:79-100 | an instance with a namespace on record keeps it, and every handler works in it, for as long as it is on record |
| Namespaces.NamespaceIsFixed | internal/handlers/definition_instances.go:79-100 | any other instance too stays in one namespace, unless a PATCH re-pins it |
| Secrets.DefaultNamespace | internal/handlers/definition_instances.go:79-100 | a record with neither namespace nor references is in "default" |
| Namespaces.NamespaceSurvivesIff | internal/handlers/definition_instances.go:79-100 | a step leaves an instance in its namespace if and only if one is on record, or the references were not replaced, or the new ones begin in the same namespace |
| Namespaces.RefsAreReplacedByAPatch | internal/definition/update.go:66-103 | the references of an instance without a namespace on record are replaced by an accepted PATCH that rendered them, and by nothing else |
| Namespaces.CalmPatchMovesIff | internal/handlers/service_instances.go:215-308 | undisturbed, a PATCH moves such an instance if and only if its first object is pinned to another namespace and the objects have to be written |
| Namespaces.PinnedManifestMovesTheInstance | internal/handlers/definition_instances.go:79-100 | the failing case: an instance migrated without a namespace, in "a", under a template pinned to "b" |
| Protocol.GuardHoldsIffListable | internal/handlers/service_instances.go:160-172 | a DELETE of an instance with a ready binding is refused if and only if the bindings can be listed |
| Protocol.UnlistableBindingDoesNotGuard | internal/handlers/service_instances.go:160-172 | with a failed listing an instance with a ready binding is removed |
| RunInvariants.EveryStepIsSound | internal/definition/update.go:27-103 | each request, reconcile, restart with changed definitions or failure keeps the run invariant |
| RunInvariants.EveryRunIsSound | internal/definition/engine.go:224-346 | the run invariant holds after every run |
| RunGuarantees.FreshBrokerIsSound | internal/definition/engine.go:81-88 | a broker without records satisfies the run invariant, whatever the cluster holds; those objects are nobody's until a record claims them |
| RunGuarantees.EveryObjectHasOneOwner | internal/definition/engine.go:224-346 | after any run an object under a broker name is nobody's if and only if no record names it, and a record that names it is that of the instance its name belongs to |
| RunGuarantees.AbandonedObjectsWereRetained | internal/definition/engine.go:303-312 | an object under a broker name that no record names at the end of a run, and that was absent or named at some point of it, was retained by a step in between |
| RunGuarantees.EveryRecordIsFaithful | internal/definition/update.go:47-96 | after any run the parameters are the overlay of all accepted sets, allowed in the plan as last loaded, the maintenance version is that plan's, and intact objects carry the rendering |
| RunGuarantees.ObjectsCarryTheLastRender | internal/definition/update.go:47-103 | from the answers alone: if no step on an instance was begun and broke off since its last accepted provision, PATCH or reconcile, every object carries the record's rendering, whatever was refused in between |
| RunGuarantees.AnswerOfStep | internal/handlers/service_instances.go:21-308 | what an answer says: the step rendered the instance anew, broke off, removed its record, or left every object alone, as every refusal and every quiet reconcile does |
| RunGuarantees.RefusalsTouchNothing | internal/definition/update.go:27-61 | a provision or update refused for its plan, parameters or manifest has written nothing, also when the record could not be read |
| RunGuarantees.RetriedPatchIsIntact | internal/handlers/service_instances.go:183-308 | whatever call broke a PATCH off, the same PATCH sent again undisturbed is answered 200 and every object carries the record's rendering |
| RunGuarantees.StepTouchesOnlyItsInstance | internal/handlers/service_instances.go:21-308 | a step on one instance leaves every object of another and every other record as they were |
| RunGuarantees.OthersStayFaithfulThrough | internal/definition/engine.go:224-346 | so every other instance stays on record and as faithful as it was |
| RunInvariants.ProvisionOfUnknown | internal/definition/engine.go:224-290 | a provision touches only its own instance's objects and creates a faithful record |
| RunInvariants.UpdateOfFaithful | internal/definition/update.go:27-103 | an update appends one parameter set to the history of a faithful record |
| RunInvariants.ReconcileOfFaithful | internal/definition/reconcile.go:53-96 | a reconcile re-renders a faithful record without changing its history |
| RunInvariants.DeprovisionOfFaithful | internal/definition/engine.go:295-346 | a deprovision that forgets a faithful record has removed exactly its objects, or kept them all if retained |
| StateStore.MemoryStateStore.ListBindingsByInstance | internal/broker/statestore.go:156-166 | each binding of the instance as often as the map holds it, and no other, whatever the map order |
| CrdStore.CRDStateStore.PutObject | internal/broker/crdstate.go:95-110 | the get-then-write loop shared by the three writers |
| CrdStore.CRDStateStore.DeleteObject | internal/broker/crdstate.go:342-348 | a missing object is no error |
| CrdStore.CRDStateStore.PutInstance | internal/broker/crdstate.go:89-111 | nothing is written of a record JSON cannot express; otherwise the loop |
| CrdStore.CRDStateStore.GetInstance | internal/broker/crdstate.go:114-128 | another id's record reads as not found |
| CrdStore.CRDStateStore.DeleteInstance | internal/broker/crdstate.go:132-139 | deletes by derived name, tolerating a missing one |
| CrdStore.CRDStateStore.PutBinding | internal/broker/crdstate.go:145-188 | the resource first, then the Secret written or removed |
| CrdStore.CRDStateStore.GetBinding | internal/broker/crdstate.go:191-203 | another id's record reads as not found, then the credentials are read |
| CrdStore.CRDStateStore.DeleteBinding | internal/broker/crdstate.go:206-216 | the resource first, then the Secret |
| CrdStore.CRDStateStore.ListBindingsByInstance | internal/broker/crdstate.go:267-293 | one list by label, the instance id compared, then each binding loaded, in any order, until one load fails |
| CrdStore.CRDStateStore.WriteCredentialsSecret | internal/broker/crdstate.go:297-340 | the owner is read before the Secret is written |
| CrdStore.CRDStateStore.BindingFromSpec | internal/broker/crdstate.go:516-540 | a missing Secret reads as no credentials |
| CrdProofs.InstanceRoundTrip | internal/broker/crdstate.go:445-493 | encoding and decoding an instance gives it back in JSON normal form |
| CrdProofs.BindingRoundTrip | internal/broker/crdstate.go:495-540 | encoding and decoding a binding gives it back in JSON normal form |
| CrdProofs.PutCrEffect | internal/broker/crdstate.go:95-110 | a success has written exactly its object, on top of what others had put on it; a failure nothing |
| CrdProofs.PutCrIsOneWrite | internal/broker/crdstate.go:95-110 | in any environment the loop is one write at its last call, on top of all others have done by then, or, when it fails, none |
| Retries.PutSurvivesFourConflicts | internal/broker/crdstate.go:95-110 | a write of the store likewise |
| CrdProofs.WriteCredentialsEffect | internal/broker/crdstate.go:297-340 | a success has written this Secret alone, owned by the resource that stands now; a failure nothing |
| CrdProofs.PutInstanceRefines | internal/broker/crdstate.go:89-111 | a success is the map's update, a failure leaves the represented map alone |
| CrdProofs.GetInstanceRefines | internal/broker/crdstate.go:114-128 | what is found is the map's record in normal form; "not found" is said only of missing ids |
| CrdProofs.DeleteInstanceRefines | internal/broker/crdstate.go:132-139 | a success is the map's removal, a failure leaves the represented map alone |
| CrdProofs.PutBindingRefines | internal/broker/crdstate.go:145-188 | a success is the update; one broken off between its halves has written the resource and left the Secret; any other failure has done nothing |
| CrdProofs.DeleteBindingRefines | internal/broker/crdstate.go:206-216 | a success is the removal; one broken off between its halves has deleted the resource and left the Secret; any other failure has done nothing |
| CrdProofs.LoadRefines | internal/broker/crdstate.go:350-373 | loading gives the stored binding with the credentials that are in its Secret, in normal form, and fails if and only if a call failed |
| CrdProofs.GetBindingRefines | internal/broker/crdstate.go:191-203 | what is found is the stored binding with the credentials that are in its Secret, in normal form; "not found" is said only of missing ids |
| CrdProofs.GetNeverReturnsAnotherRecord | internal/broker/crdstate.go:122-126 | with no assumption on names, a get returns a record of the id asked for or none |
| CrdProofs.StepRefines | internal/broker/crdstate.go:66-216 | every operation is answered by what the resources stand for, or fails; a failure has done nothing or exactly the first half |
| CrdProofs.CrdStoreIsExact | internal/broker/crdstate.go:66-216 | after every sequence of operations with any calls failing, the resources represent what was written, half-written bindings included, and the next answer follows from that |
| CrdProofs.CrdStoreRefinesTheMap | internal/broker/crdstate.go:66-216 | after every sequence of operations with any calls failing, the next answer is the plain map's or a failure; the exception is reading a binding whose last write was broken off half way |
| CrdProofs.CompletedWriteSettles | internal/broker/crdstate.go:145-216 | a completed write or deletion of a binding ends that exception |
| BothStores.RunOnBoth | internal/broker/statestore_contract_test.go:23-186 | the two stores, given the same operations with any calls failing, agree on every answer that is no failure, except for a read of a binding whose last write was broken off half way, which is answered by what its resources hold |
| BothStores.RunAndListOnBoth | internal/broker/statestore_contract_test.go:23-186 | after any such run both stores list the same bindings of an instance, each once, unless a call of the listing fails or one of its bindings was last written half way |
| CrdProofs.EmptyRepresentsEmpty | internal/broker/crdstate.go:40-42 | an empty namespace represents the empty map |
| CrdListing.LabelIndexIsComplete | internal/broker/crdstate.go:267-293 | after every sequence of operations in any environment, selecting by label and then by id finds exactly what a full scan by instance id would |
| CrdListing.EveryLabelFits | internal/broker/crdstate.go:145-181 | no operation, wherever it breaks off, leaves a binding resource with a label other than its instance's |
| CrdListing.ListBindings | internal/broker/crdstate.go:267-293 | unless a call fails, the list holds each binding of the instance exactly once, as a Get would return it |
| CrdProgress.UnhinderedStepAnswers | internal/broker/crdstate.go:89-216 | with no call failing every operation gets exactly the map's answer |
| CrdProgress.ResourcesAre | internal/broker/crdstate.go:66-110 | where the resources of a record are and what they are labelled with |
| CrdProgress.SameRecordsSameResources | internal/broker/crdstate.go:445-514 | two namespaces that represent the same records hold the same resources under the same broker labels |
| CredentialProofs.EverySecretIsOwned | internal/broker/crdstate.go:303-340 | through crashes, collection and manual deletion every credentials Secret names the binding resource it belongs to |
| CredentialProofs.OrphanIsCollectable | internal/broker/crdstate.go:303-314 | once that resource is gone the Secret may be collected |
| CredentialProofs.OrphanIsNotAdopted | internal/broker/crdstate.go:303-340 | and stays so when a resource of the same name comes back, until its credentials are written anew |
| CredentialProofs.CompletedPutBindingLeavesItsCredentials | internal/broker/crdstate.go:182-188 | whatever happens in between, a completed write leaves exactly the given credentials, or no Secret |
| CredentialProofs.CompletedDeleteBindingLeavesNothing | internal/broker/crdstate.go:206-216 | whatever happens in between, a completed deletion leaves neither object |
| CredentialProofs.BrokenOffPutIsRead | internal/broker/crdstate.go:182-203 | a write broken off before the Secret is read with its own credentials if and only if the Secret held them before; where none stood, with none |
| CredentialProofs.StaleCredentials | internal/broker/crdstate.go:182-216 | a deletion and a write of the same id that both broke off before the Secret leave the new binding with the old credentials |
| Names.ResourceNamesCollideOnlyThroughTheHash | internal/broker/crdstate.go:66-72 | names are valid and two ids share one exactly when equal or through the digest |
| Interleaving.NoChangeIsLost | internal/broker/crdstate.go:95-110 | however loops and strangers interleave, the object is all accepted changes one after the other; a successful loop contributed exactly one, a failed one none, none made more than ten calls |
| Interleaving.EveryLoopReturns | internal/definition/operator.go:404-425 | a loop has returned after ten turns |
| Interleaving.NoLabelIsLost | internal/definition/operator.go:416-424 | a label stays as last set, by whomever, until the object is removed |
| Interleaving.NoAnnotationIsLost | internal/broker/crdstate.go:104-108 | an annotation stays as a stranger last set it |
| Interleaving.NoRecordIsLost | internal/broker/crdstate.go:104-108 | the record last stored is the one that is there |
| LoneLoops.PutCrIsALoop | internal/broker/crdstate.go:95-110 | the store's loop, in any environment with failures, annotations and removals, is one loop of the interleaving model with those strangers |
| LoneLoops.LabelOneIsALoop | internal/definition/operator.go:404-425 | the operator client's labelling loop likewise, with operators writing the status |
| DeepCopies.DeepCopyValue | internal/broker/deepcopy.go:16-31 | the same JSON in objects nobody else has |
| DeepCopies.DeepCopyMap | internal/broker/deepcopy.go:33-42 | a fresh map with the same contents at every depth |
| DeepCopies.DeepCopySlice | internal/broker/deepcopy.go:21-26 | a fresh slice with the same contents at every depth |
| DeepCopies.DeepCopyInstance | internal/broker/deepcopy.go:54-66 | the same record in objects nobody else has: no field that refers to another object is forgotten |
| DeepCopies.DeepCopyBinding | internal/broker/deepcopy.go:69-83 | the same for bindings |
| DeepCopies.Shelf.Put | internal/broker/statestore.go:96-101 | what is stored of an instance or a binding lives in objects of the store's own |
| DeepCopies.Shelf.Get | internal/broker/statestore.go:115-123 | what is handed out is fresh, shares nothing with the store, and the store is unchanged |
| DeepCopies.WriteAll | internal/broker/statestore_contract_test.go:134-160 | writes over any maps and slices that are not the store's own leave what it holds |
| DeepCopies.CallerWritesAfterPut | internal/broker/statestore_contract_test.go:134-160 | writing over the record that was put, at any depth, or over one that was read, does not reach the store |
| Migration.Run | internal/migrate/migrate.go:102-157 | in any map order: counts, skipped entries, dry run, missing source and the operations done up to the first failure |
| Migration.RunInstances | internal/migrate/migrate.go:128-140 | each non-null instance is written once, until one write fails |
| Migration.RunBindings | internal/migrate/migrate.go:142-154 | each non-null binding is written once, until one write fails |
| MigrationProofs.CompleteReachesTheGoal | internal/migrate/migrate.go:97-157 | a complete run arrives at the map with every old record put on top, in whatever order |
| MigratedRecords.MigratedInstanceReadsBack | internal/migrate/migrate.go:161-179 | after a complete migration, reading an instance gives the old record back field by field |
| MigratedRecords.MigratedBindingReadsBack | internal/migrate/migrate.go:181-208 | and reading a binding, credentials included |
| MigrationProofs.MigrationIsConfluent | internal/migrate/migrate.go:97-157 | two complete runs end with the same resources |
| MigrationProofs.AbortedMigrationResumes | internal/migrate/migrate.go:97-157 | a run broken off anywhere and then completed ends where one complete run ends |
| MigrationProofs.MigratingTwiceIsMigratingOnce | internal/migrate/migrate.go:97-101 | a second run changes no record |
| Names.SanitizeInstanceName | internal/definition/render.go:17-50 | the loop computes the sanitized name and never reaches its final re-prefix branch |
| Names.SanitizedNameIsALabel | internal/definition/render.go:17-50 | every id becomes an `osb-` label of at most 63 characters valid under RFC 1123 section 2.1 |
| Names.SanitizedCharacters | internal/definition/render.go:17-37 | letters lose their case, digits stay, anything else of ASCII becomes a dash |
| Names.SanitizeIsIdempotent | internal/definition/render.go:17-50 | sanitizing a name again changes nothing |
| Names.SanitizeIsInjectiveOnPlainIds | internal/definition/render.go:17-50 | trimmed lower-case ids of at most 59 characters that are not prefixed never share a name |
| Names.SanitizedNamesCollideIff | internal/definition/render.go:17-50 | exactly which ids share a name, shortened ones included, for any hash |
| Names.EmptyIdCollides | internal/definition/render.go:31-37 | the empty id and "instance" share a name |
| Names.PrefixedIdCollides | internal/definition/render.go:31-37 | an id and its prefixed form share a name |
| Manifests.SplitManifests | internal/definition/render.go:151-161 | splits at newline-dash-dash-dash, trims, drops blanks |
| Manifests.EveryDocumentIsClean | internal/definition/render.go:148-161 | every returned document is trimmed, non-empty and free of separators |
| Manifests.SplitInvertsJoin | internal/definition/render.go:148-161 | splitting recovers exactly the joined documents, in order |
| Manifests.LeadingDashesSurviveIff | internal/definition/render.go:148-161 | a returned document begins with three dashes if and only if the text, or what follows one of its separators, is white space and three dashes |
| Manifests.LeadingSeparatorSurvives | internal/definition/render.go:148-161 | a manifest that opens with a separator line keeps it, against the comment |
| Manifests.LongSeparatorSurvives | internal/definition/render.go:148-161 | a line of six dashes leaves three on the next document |
| Quantity.IntegerTextsReadBack | internal/definition/limits.go:176-218 | a printed integer reads back as the same number, as quantity and as schema bound |
| Quantities.SizeReads | internal/definition/limits.go:52-68 | an integer and a unit denote the integer times the number of the unit, for every binary and decimal unit |
| Quantities.FractionReads | internal/definition/limits.go:52-68 | sign, digits, point, digits and unit denote the decimal number times the unit |
| Quantities.ExponentReads | internal/definition/limits.go:52-68 | an integer and an exponent denote the integer times that power of ten |
| Quantities.PowersOfTen | internal/definition/limits.go:52-68 | the powers of ten: one at zero, each ten times the one before |
| Quantities.NumbersRead | internal/definition/limits.go:199-212 | as a plain number only texts without unit can be read |
| Limits.ValidateLimits | internal/definition/limits.go:101-130 | accepts exactly the limits whose bounds parse, in any map order |
| Limits.CheckLimitDecides | internal/definition/limits.go:36-72 | a validated limit never panics and accepts exactly values in the enumeration or between the bounds |
| Quantities.UpperLimitMeans | internal/definition/limits.go:52-62 | a size passes an upper limit if and only if the number of the one in its unit is at most that of the other in its own |
| Quantities.LowerLimitMeans | internal/definition/limits.go:63-70 | and a lower one likewise |
| Quantities.NumberAgainstLimit | internal/definition/limits.go:36-62 | a number sent as such is compared with the same limits |
| Quantities.EnumerationMeans | internal/definition/limits.go:42-50 | an enumeration admits the texts it lists, and the numbers and truth values whose texts it lists |
| Limits.CheckLimits | internal/definition/limits.go:23-34 | the verdict is the same in every map order |
| Limits.UnreadableBoundPanics | internal/definition/limits.go:36-72 | without validation the bound parse panics |
| Limits.BuildParameterSchema | internal/definition/limits.go:162-173 | every allowed parameter and no other is published |
| Quantities.PublishedRange | internal/definition/limits.go:176-218 | bounds that are numbers are published as such, the others in words |
| Limits.PropertySchemaAgreesIff | internal/definition/limits.go:176-218 | limit by limit, schema and broker agree on a value if and only if it is of the kinds named in SameVerdict |
| Limits.PublishedSchemaAgrees | internal/definition/limits.go:162-218 | the schema accepts exactly what the broker accepts, for all parameters on which no single limit is at odds |
| Limits.OneParameterAgreesIff | internal/definition/limits.go:162-218 | on a single parameter the whole schema agrees only then |
| Limits.IntegerLimitsAgree | internal/definition/limits.go:162-218 | whole numbers against integer bounds and texts against enumerations agree, in any plan |
| Limits.SchemaAndBrokerDisagreeOutside | internal/definition/limits.go:162-218 | two values on which they part: a number against an enumeration, a text against a bound |
| Validation.Validate | internal/definition/definition.go:343-397 | decides the conjunction of all conditions on a definition |
| Validation.LoadedDefinitionIsUsable | internal/definition/definition.go:343-436 | what the rest of the broker may rely on: names, plans found under their own ids, something to provision, somewhere to read the state, a source for credentials and one origin for each target key |
| Validation.PlainDefinitionIsLoaded | internal/definition/definition.go:343-436 | a definition with just the required parts is accepted |
| Validation.ValidatedLimitsApply | internal/definition/limits.go:101-130 | a limit of a validated plan is an enumeration or a range, with readable bounds, on a parameter that may be set |
| Validation.ValidateBind | internal/definition/definition.go:403-436 | decides whether the credentials have a source, a projected Secret a type, and every target key one name and one origin |
| Validation.ValidateFromStatus | internal/definition/fromstatus.go:146-167 | decides whether values taken from a status are complete, named once and have a mapping to go to |
| Validation.ValidatePlanParams | internal/definition/definition.go:239-255 | the verdict depends on the contents alone and no bound parse panics |
| Validation.ResolvedPlansAreReadable | internal/definition/definition.go:343-397 | every plan of a validated definition may be checked safely |
| Definition.MaintenanceVersionIsThePlans | internal/definition/definition.go:168-178 | with distinct plan ids the recorded version is the one the plan states |
| CertReload.CertReloader.Reload | internal/server/tls.go:60-112 | every reading is accounted for: what is held afterwards is what all readings so far come to, and the outcome says whether this one changed it |
| CertReload.CertReloader.GetConfigForClient | internal/server/tls.go:159-171 | a handshake gets certificate and client CAs from one and the same reading, the last that changed something, and none exactly as long as every reading was broken |
| CertReload.ServedMaterialIsOneReading | internal/server/tls.go:60-171 | after any polls certificate, client CAs and digests come from one reading, the last that changed something |
| CertReload.PollServesTheFiles | internal/server/tls.go:81-112 | if digests do not collide, a poll without error serves what the files hold |
| CertReload.SameFilesAreNoChange | internal/server/tls.go:81-95 | reading the same files again changes nothing and says so |

## Left out

- Floating point: numbers are exact reals, so nothing is said of integers beyond 2^53 or of rounding in JSON.
- Quantities: the exact rational reading with the suffix table; nano rounding and the 2^63-1 cap are not modelled.
- Go's `text/template`, YAML decoding, gjson, SHA-256 and semantic versions are uninterpreted; error texts are reduced to kinds.
- The API server: no admission, defaulting or webhooks, objects are identified by apiVersion rather than group, and kinds without a
  status subresource are not told apart.
- OperatorProofs.ApplyOneEffect: assumes, as do the theorems on the engine and on runs, that nobody else creates objects; `Strangers` does not.
- RunInvariants.EveryRunIsSound: is about brokers whose instances all have a namespace on record; the theorems of `Protocol` and
  `Namespaces` are not.
- Handlers are atomic steps: there is no per-instance lock in the broker, and interleaving is modelled in the read-modify-write loops only.
- Interleaving.NoChangeIsLost: is about one object; loops on different objects do not interact, so their product is not built.
- DeepCopies.Shelf.Put: a record is an object whose fields are its entries; nil records are not modelled.
- DeepCopies.DeepCopyMap: gathers the copies and then makes the map object, where the Go code makes the object first and fills it.
- CrdProofs.CrdStoreRefinesTheMap: assumes that nothing is removed behind the store's back; `CredentialProofs` has removal.
- CrdProofs.CrdStoreRefinesTheMap: says nothing of a binding whose last write was broken off half way; `CrdProofs.CrdStoreIsExact` does.
- LoneLoops.PutCrIsALoop: strangers annotate that one object only; elsewhere things are merely removed. LoneLoops.LabelOneIsALoop likewise.
- RunGuarantees.RetriedPatchIsIntact: takes the second request right after the first.
- ReconcileProofs.AppliedMeansConfiguredIff: is about a cluster without failures; with failures "applied" still means the last rendering was carried.
- Protocol.BindCase: the credentials an operator offers are an oracle; mapping Secret keys and the projected Secret's labels are not modelled.
- `ListInstances`, the counters, GET and last_operation handlers, catalogue, readiness and credential mapping: single loops or lookups.
- Namespace checks and creation (`EnsureNamespace`) are one oracle; a missing registry (`nil`) is not modelled.
- TLS handshakes, certificate parsing, configuration, authentication, metrics, headers and routing.
