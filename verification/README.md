# FireDrill, modelled in Dafny

FireDrill proves that backups can be restored: it fetches a backup, restores it into a throwaway sandbox, checks the
restored data, tears the sandbox down and writes signed evidence. This project models the parts of FireDrill on which
those promises rest and proves them for all inputs and all runs. `dafny verify dfyconfig.toml` checks everything.

Where the source computes values, the model consists of functions; where it changes state step by step, of classes and
methods with loops. Protocols with several threads or several writers are state machines over their steps. Docker, the
API server, the clock, cron, query engines, cryptography and codecs are parameters about which only what is stated is
assumed.

| file | what it is about |
|---|---|
| Clock, Resources, DrillRun, DrillSafety, DrillExact, DrillEnds, Providers, DrillExits | one drill as the interleaved steps of the main thread and the TTL watchdog, with faults, lost replies and an environment; what every run keeps; exactly what is left behind; that it ends; the three providers; where each failure takes a drill |
| Sandboxes, VeleroRestore, SoloRun | the sandbox objects and their provisioning, teardown and restore as code run by one thread, and its agreement with the interleaved model |
| Sweep, CrashSafety | the sweep for orphans, what it makes of a drill that died at any step, and what it takes from a live one |
| Status, Reconcile, Schedule | status updates under optimistic concurrency; the operator's scheduling loop; whole runs of it |
| Shell, JavaScript, ChecksumScript | the two quotings of the MongoDB checksum, against readers for the two languages |
| Decimal, Dsse, Signing, Provenance | the pre-authentication encoding and its decoder; signature, attestation and bundle; what accepted evidence proves |
| Gate, Grouping, Lexicographic, Controls, Sorting | the recovery gate against a declarative objective; the report; the control report as a second view |
| Checks, PodsReady, Verify, Verdict | validation of checks, running them, the wait for pods, and the verdict |
| Layers, Streams, Fetch, Discovery | recognising layers, bounded copies, fetching as the inverse of the backup pipeline, picking the newest backup |

Results that go against what a reader of the code or its comments might expect. Each is proved, with a concrete case
and, where something fails, the exact condition:

- A failed Docker provisioning leaves a container behind when its creation took effect but the reply was lost
  (`DockerCanLeaveAContainer`); what is left is exactly what such creations made (`FailedProvisionLeavesNothing`, and
  `ProvisionDocker` by request). The Kubernetes one never leaves anything, for it chooses names beforehand.
- A Velero drill's evidence can say "destroyed" while a Restore object remains (`VeleroCanOutliveItsRecord`), exactly
  when the object was created after teardown had passed it (`DestroyedNamespaceIsGone`). It is never so for a namespace,
  a pod, a container or a network, and the sweep finds it.
- A sweep can take a live drill's network, exactly while no container runs on it yet and it is older than the threshold,
  and its Restore object, exactly when that is older than the threshold (`LiveNetworkIsTaken`, `LiveRestoreIsTaken`;
  the runs are `LongPullLosesItsNetwork` and `LongRestoreLosesItsObject`).
- A Docker teardown that finds its container or network gone already records "not destroyed" for good, exactly then or
  when a request failed (`DockerTeardownFails`); a Kubernetes or Velero one does not mind (`GrantedTeardownSucceeds`).
- A dry run announces networks in use, which a real sweep skips; in all else it forecasts exactly (`DryRunForecasts`).
- `Force` is documented as reaping what is older than the threshold; networks and Restore objects it reaps at any age
  (`ForceAndAge`; the case is `ForceTakesTheNew`).
- The retry five minutes after an execution error re-runs a scheduled drill only if a tick has passed since
  (`RetryAfterError`). A drill is due at every moment exactly when its schedule has no further tick
  (`AlwaysDueMeansNoTick`).
- The wake-up after a scheduled run is not set when a tick comes between two readings of the clock, exactly then; the
  drill is due by then (`WakeUpIsSet`).
- Runs that finished at the same instant can make the gate pass or fail by the luck of an unstable sort
  (`TiesCanDecide`); exactly when is `WhenTiesDecide`. The comment on `AllowUnverified` speaks of a verified run
  inside `MaxAge`; with `MaxAge` 0 none need exist (`WaivedGateNeedsNoVerifiedRun`).
- A copy limited to the largest 64-bit number copies nothing and succeeds (`WhenTheLimitIsKept`), and the hundredfold
  expansion cap overflows just above 92233720368547758 bytes, into no cap at all (`HundredfoldFits`).
- The bound on uncompressed size also applies to a plain object from S3, but not to the same bytes from a file
  (`ObjectAgreesWithFile`; the case is `PlainObjectCanBeRefused`).
- An accepted signature does not always mean that the file was signed as a file. The encoding of an attested statement
  passes, with its attestation's signature (`AttestationPassesForASignature`); these encodings are exactly the exceptions
  (`WhenAcceptanceMeansSigned`), and no evidence is one of them (`VerifiedWasSigned`).
- A validated drill can verify a restore that brought back nothing, exactly when each of its checks is satisfied by
  nothing, such as a row count without a minimum (`WhenNothingIsVerified`, `RowCountWithoutMinimum`).
- A check with two fields counts as proving data in one place and runs as another kind in another; only the rule of one
  field per check closes the gap (`TwoFieldsHideTheData`, `WhenTheGuardDecides`).

## Model

| member | source | states |
|---|---|---|
| Resources.Delete | pkg/sandbox/docker/docker.go:240-258 | a removal request touches one resource only, and one counted as a success leaves that resource gone |
| Resources.DeleteMeans | pkg/sandbox/docker/docker.go:240-258 | what a removal succeeds on, by kind: the Docker daemon must find the resource, and no running container on a network, while the API server minds neither; and exactly what changes |
| DrillSafety.StepKeepsInv | pkg/drill/drill.go:115-220 | every step of main thread, watchdog, clock and environment keeps the invariants of drill, teardown, leases and evidence |
| DrillSafety.RemovalsAreIssuedOnce | pkg/sandbox/docker/docker.go:240-258 | in every interleaving each removal is requested at most once, a later one is tried although an earlier failed, and `destroyed` implies that all succeeded |
| DrillSafety.VerdictIsFinal | pkg/sandbox/docker/docker.go:155-163 | once the teardown body has run, no later step of any thread changes what it found |
| DrillSafety.EvidenceTellsTheFate | pkg/drill/drill.go:133-143 | evidence is written after teardown, and its `Destroyed` is for ever the value in memory: true exactly when every removal requested succeeded |
| DrillSafety.DestroyedMeansGone | pkg/drill/drill.go:215-219 | evidence that says destroyed means every resource of the drill is gone, but for one created after teardown passed it |
| DrillSafety.FailedProvisioningLeavesOrphansOnly | pkg/sandbox/docker/docker.go:71-129 | whichever request of provisioning fails, no watchdog and no evidence; with removals succeeding nothing is left that the drill knew of |
| DrillSafety.TeardownGoesOn | pkg/drill/drill.go:137-143 | teardown never deadlocks: while the main thread waits for it, one of the two threads can go on |
| DrillEnds.DrillIsBounded | pkg/drill/drill.go:60-220 | under every schedule the two threads of a drill take at most as many steps as it has requests, and eleven more |
| DrillEnds.TeardownEnds | pkg/drill/drill.go:137-143 | so when neither thread can go on, no teardown is still waited for |
| DrillExits.DockerEnds | pkg/drill/drill.go:121-219 | in every finished run of a Docker drill: no sandbox, and no cleanup, exactly if the ping or the network failed; a cleanup exactly if a later request of provisioning did; evidence exactly if none of these, the connection and the write did not fail, whatever became of restore and checks |
| DrillExits.KubernetesEnds | pkg/sandbox/kubernetes/kubernetes.go:71-177 | the same for Kubernetes, where only the client's configuration fails without a cleanup |
| DrillExits.VeleroEnds | pkg/drivers/velero/velero.go:59-124 | the same for Velero, where reading the Backup and creating the namespace do, and whatever fails later is written down |
| DrillExact.RecordsFollowEvents | pkg/sandbox/docker/docker.go:71-129 | in every environment the model's orphans and late creations are those that the events of the run made |
| DrillExact.DestroyedExactly | pkg/sandbox/docker/docker.go:240-258 | in every run a finished teardown counts as destroyed exactly when no removal request of it failed, read off the events |
| DrillExact.FailedProvisioningLeavesExactly | pkg/sandbox/docker/docker.go:71-129 | a failed provisioning whose removals succeed leaves at most, and without interference exactly, the creations whose reply was lost |
| DrillExact.DestroyedLeavesExactly | pkg/drill/drill.go:215-219 | under evidence that says destroyed there remain at most, and without interference exactly, the creations that came after teardown passed them |
| DrillSafety.OthersAreUntouched | pkg/drivers/velero/velero.go:98-211 | neither thread ever changes a resource that is not the drill's own |
| Providers.DockerShape | pkg/sandbox/docker/docker.go:56-166 | the Docker program arms its watchdog once and last, and creates nothing beside it |
| Providers.KubernetesShape | pkg/sandbox/kubernetes/kubernetes.go:71-177 | the same, and every name is fixed before its object is requested |
| Providers.VeleroShape | pkg/drivers/velero/velero.go:59-192 | the namespace is made before the watchdog runs, the Restore object beside it |
| Providers.DestroyedSandboxIsGone | pkg/drill/drill.go:137-143 | for Docker and Kubernetes, evidence that says destroyed is simply true |
| Providers.DestroyedNamespaceIsGone | pkg/drill/velero.go:26-34 | for Velero it is true of the namespace; the Restore object remains exactly when its creation came after teardown passed it and nobody else removed it |
| Providers.GrantedTeardownSucceeds | pkg/sandbox/kubernetes/kubernetes.go:304-308 | for Kubernetes and Velero, a teardown whose requests were granted counts as destroyed, whatever the environment removed before |
| Providers.DockerTeardownFails | pkg/sandbox/docker/docker.go:245-256 | for Docker it does not, exactly when some removal was refused, lost its reply, or found its resource gone or its network in use |
| Providers.FailedPodProvisionLeavesNothing | pkg/sandbox/kubernetes/kubernetes.go:89-176 | whichever request fails, even one that took effect, cleanup leaves no pod |
| Providers.FailedProvisionLeavesNothing | pkg/drivers/velero/velero.go:98-123 | for Docker and Velero nothing is left exactly when no creation's reply was lost that mattered; else exactly what those creations made |
| Providers.DockerCanLeaveAContainer | pkg/sandbox/docker/docker.go:98-129 | it happens: a run in which all removals succeed and a container stays |
| Providers.VeleroCanOutliveItsRecord | pkg/drivers/velero/velero.go:137-159 | a run whose evidence says destroyed while a Restore object remains |
| Sandboxes.Sandbox.Destroy | pkg/sandbox/kubernetes/kubernetes.go:295-311 | the body runs once: the watchdog is told to stop, a port-forward is closed, both removals are tried and `destroyed` holds exactly when what was made was removed, by the rule of its kind; later calls change nothing and repeat the answer |
| Sandboxes.GoneAlready | pkg/sandbox/kubernetes/kubernetes.go:304-308 | on a world without the resource teardown succeeds for a pod, a namespace and a Restore object, and fails for a container and a network |
| Sandboxes.BodyIsTearDown | pkg/drivers/velero/velero.go:195-211 | the interleaved model's teardown, run without interference, is what Destroy does |
| Sandboxes.Populate | pkg/sandbox/docker/docker.go:78-154 | what each failing request between network and readiness leaves, for every fault |
| Sandboxes.ProvisionDocker | pkg/sandbox/docker/docker.go:56-166 | success adds exactly one network and one running container on it; failure leaves exactly what its failing request made if that was one of the two creations and took effect, and else the world as it was |
| Sandboxes.ProvisionPod | pkg/sandbox/kubernetes/kubernetes.go:71-177 | success adds exactly one pod; failure restores the world whatever took effect |
| Sandboxes.PrepareVelero | pkg/drivers/velero/velero.go:59-124 | success adds exactly one namespace; for each failing request and fate, what is left |
| SoloRun.DockerSoloRun | pkg/sandbox/docker/docker.go:56-166 | the interleaved model's main thread, alone and granted everything, makes the world ProvisionDocker promises |
| SoloRun.KubernetesSoloRun | pkg/sandbox/kubernetes/kubernetes.go:71-177 | the same for ProvisionPod |
| SoloRun.VeleroSoloRun | pkg/drivers/velero/velero.go:59-124 | the same for PrepareVelero |
| VeleroRestore.Drill.Restore | pkg/drivers/velero/velero.go:137-192 | the result is that of the first poll seeing an end phase or any Failed variant, failed polls being ignored; success means Completed; the name is fixed before the request |
| VeleroRestore.EndPhases | pkg/drivers/velero/velero.go:160-190 | Completed, PartiallyFailed and every Failed variant end the wait, New and InProgress do not |
| Sweep.SweepKind | pkg/gc/gc.go:71-113 | whatever order the server lists, exactly the due and deletable resources of a kind go, and each listed one is reported once under its outcome |
| Sweep.ReportIsTrue | pkg/gc/gc.go:88-112 | what is reported reaped is gone, what is reported skipped is as it was, and each listed resource is reported once |
| Sweep.ReportTells | pkg/gc/gc.go:79-90 | reaped is exactly what the sweep took on a granted request, an error exactly what was wanted, not granted and no network, skipped the rest |
| Sweep.DryRunForecasts | pkg/gc/gc.go:99-111 | a dry run announces exactly what a sweep with all requests granted reaps, and besides the networks in use, which a real sweep skips |
| Sweep.NoNetworkFails | pkg/gc/gc.go:107-111 | a network that cannot be removed is never an error |
| Sweep.SweepDocker | pkg/gc/gc.go:56-115 | containers before networks: the new world and the whole report as those two phases give them |
| Sweep.SweepKubernetes | pkg/gc/gc.go:121-209 | pods, then namespaces, then Restore objects: the new world and the whole report |
| Sweep.UnmarkedIsUntouched | pkg/gc/gc.go:72-74 | a resource without FireDrill's mark stays as it was |
| Sweep.DryRunIsHarmless | pkg/gc/gc.go:80-83 | a dry run changes nothing |
| Sweep.LeaseIsRespected | pkg/gc/gc.go:46-53 | no container, pod or namespace is touched before the deadline on its label unless forced |
| Sweep.LeaseDecides | pkg/gc/gc.go:46-53 | unforced, a container, a pod or a live namespace goes exactly when its label has passed, whatever its age; without a label exactly when its reported age exceeds the threshold |
| Sweep.ForceOverridesLease | pkg/gc/gc.go:46-53 | by force, exactly when its reported age exceeds the threshold, whatever the label |
| Sweep.AgeDecides | pkg/gc/gc.go:95-111 | a network goes exactly when old or forced and no running container on it survives, a Restore object exactly when old or forced |
| Sweep.NothingElseGoes | pkg/gc/gc.go:71-113 | refused requests and the other sweep's kinds leave a resource as it was |
| Sweep.LiveContainerKeepsItsNetwork | pkg/gc/gc.go:107-111 | a network outlives the sweep when a running container on it does |
| Sweep.NetworksFirstLeavesNetwork | pkg/gc/gc.go:67-113 | swept in the other order, a network in use would stay |
| Sweep.ForceAndAge | pkg/gc/gc.go:38-53 | under force, age still decides for containers, pods and namespaces, and no longer for networks and Restore objects |
| Sweep.ForceTakesTheNew | pkg/gc/gc.go:99-102 | a forced sweep takes a network and a Restore object made this moment, and leaves such a container |
| CrashSafety.RemainsAreDue | pkg/sandbox/docker/docker.go:104-112 | whenever a drill dies, a container, pod or namespace it leaves is marked and due once its time to live is past, whatever the age threshold; a network or Restore object once that is past, or by force |
| CrashSafety.SweepClearsDockerDrill | pkg/gc/gc.go:71-113 | after a crash at any step one sweep past the time to live leaves no container, and no network past the age threshold, but for one held by somebody else's running container |
| CrashSafety.SweepClearsClusterDrill | pkg/gc/gc.go:135-207 | the same for pods and live namespaces past the time to live and Restore objects past the age threshold, including one created after teardown |
| CrashSafety.SweepIsNotEarly | pkg/gc/gc.go:46-53 | the sweep never takes a drill's leased resource more than a second before its time to live is over |
| CrashSafety.LiveNetworkIsTaken | pkg/gc/gc.go:95-111 | within its lease a Docker drill loses its network to an unforced sweep exactly when that is old and no container runs on it |
| CrashSafety.LiveRestoreIsTaken | pkg/gc/gc.go:190-204 | within its lease a Velero drill loses its Restore object exactly when that is old |
| CrashSafety.LongPullLosesItsNetwork | pkg/gc/gc.go:95-111 | a reachable drill, pulling its image within its lease, whose network a sweep takes |
| CrashSafety.LongRestoreLosesItsObject | pkg/gc/gc.go:190-204 | a reachable drill, restoring within its lease, whose Restore object a sweep takes |
| Status.FoldKeepsLastWrites | pkg/operator/controller.go:177-183 | folding patches gives each field the value of the last patch that wrote it |
| Status.StatusIsTheFoldOfCommits | pkg/operator/controller.go:170-193 | with any writers, stale reads, conflicts and lost replies the status is the fold of the accepted patches in order: no lost fields |
| Status.CommitsWereBegun | pkg/operator/controller.go:170-193 | nothing is accepted that no writer set out to write |
| Status.WritersConform | pkg/operator/controller.go:170-193 | in every run a writer at work is writing what it began with and has sent at most four updates in vain |
| Status.WriterEnds | pkg/operator/controller.go:170-193 | it ends with the step that accepts its patch, with an error, or with its fifth update in vain, and with no other step |
| Status.FreshUpdateIsAccepted | pkg/operator/controller.go:170-193 | an update from a fresh read is accepted and changes its own fields only |
| Status.PatchStatus | pkg/operator/controller.go:170-193 | the retry loop commits its fields exactly once on success, loses nobody's, and stops on success, error or the fifth conflict |
| Reconcile.VerifiedPhaseIsWhole | pkg/operator/controller.go:127-130 | the phase is Verified exactly when the last accepted patch is a verified run's, and then the other fields are that run's |
| Reconcile.PublishedVerifiedIsWhole | pkg/operator/controller.go:113-148 | in every reachable state of any number of operators a published Verified comes with `verified`, a run time and a generation |
| Reconcile.OutcomeIsPublished | pkg/operator/controller.go:117-139 | a recorded run leaves its end, verdict, phase and message in the object, and its generation unless it could not execute |
| Reconcile.FiguresArePublished | pkg/operator/controller.go:140-145 | and the four measured figures, each under its own name; without a measurement the older ones stay |
| Reconcile.LookIsPublished | pkg/operator/controller.go:70-113 | any other look leaves the object as it was, but for the phase and message it announces |
| Reconcile.Reconcile | pkg/operator/controller.go:56-159 | one reconciliation: the new object and the requeue, for every plan, outcome, concurrent edit and final patch, be it accepted, refused or accepted behind an error; a delay is always positive |
| Schedule.AttemptsAnswerDistinctTicks | pkg/operator/controller.go:92-100 | each attempt of a scheduled drill answers a tick of its own, no later than its start |
| Schedule.AttemptsNeverOutnumberTicks | pkg/operator/controller.go:92-115 | attempts never outnumber the ticks passed, though recorded times drop their fraction of a second |
| Schedule.CountsFrom | pkg/operator/controller.go:92-100 | a scheduled drill is due exactly from the next tick after its last recorded run, or after its creation if it never ran, and told to wait until just then |
| Schedule.NewDrillKeepsToItsTicks | pkg/operator/controller.go:92-115 | a drill with an empty status starts at most as often as its schedule ticks after its creation |
| Schedule.RestsOnceObserved | pkg/operator/controller.go:82-86 | an unscheduled drill is due unless its status has a run, and one of just this generation |
| Schedule.UnrecordedAttemptRepeats | pkg/operator/controller.go:146-148 | a final patch that was not accepted is exactly what makes an attempt answer the same tick again; a lost reply does not |
| Schedule.WaitEndsWhenDue | pkg/operator/controller.go:97-100 | told to wait, the delay is positive and the drill is due exactly from its end on |
| Schedule.WakeUpAfterRun | pkg/operator/controller.go:154-156 | the wake-up after a run is for the tick the drill is due at, exactly if none fell between finish and computation |
| Schedule.WakeUpIsSet | pkg/operator/controller.go:154-156 | the wake-up is set exactly when no tick comes between the two readings of the clock; else the drill is already due |
| Schedule.RetryAfterError | pkg/operator/controller.go:150-153 | after an execution error an unscheduled drill is due again, a scheduled one only when its next tick has come |
| Schedule.AlwaysDueMeansNoTick | pkg/operator/controller.go:97-100 | a drill is due at every moment exactly when its schedule has no tick after the last run |
| Schedule.NeverTickingIsAlwaysDue | pkg/operator/controller.go:97-100 | a schedule without ticks makes the drill due before and after any run |
| Schedule.EachGenerationRunsOnce | pkg/operator/controller.go:82-86 | without a schedule each generation executes at most once and stays due until it has, also when edited during a run |
| Shell.ReadQuotedWord | pkg/drivers/mongodb/engine.go:116-118 | lexed as a POSIX shell word, a quoted string is exactly itself, unless it holds a NUL |
| Shell.ReadPrefixed | pkg/drivers/mongodb/engine.go:95-105 | the same behind the name of an assignment |
| Shell.Unquoted | pkg/drivers/mongodb/engine.go:116-118 | outside quotes the reader refuses whatever would begin an expansion, a pattern, another quoting or a comment |
| JavaScript.ReadEscaped | pkg/drivers/mongodb/mongodb.go:147-150 | read as an ECMA-262 string literal, a quoted name is exactly itself, for every name |
| JavaScript.SingleEscapes | pkg/drivers/mongodb/mongodb.go:147-150 | the reader's escapes are ECMA-262's |
| JavaScript.ScannerIsStrict | pkg/drivers/mongodb/engine.go:85-97 | code in which a comment, a regular expression, a template or another literal could begin is refused, not guessed at |
| JavaScript.NamesStayNames | pkg/drivers/mongodb/engine.go:85-97 | in any script template the tokens are the fixed code with one literal for each name |
| ChecksumScript.BothLayers | pkg/drivers/mongodb/engine.go:85-106 | the two quotings composed, for any script |
| ChecksumScript.NamesSurviveBothLayers | pkg/drivers/mongodb/engine.go:85-106 | database, collection and field reach MongoDB unchanged in code that does not depend on them; the shell refuses only a NUL |
| ChecksumScript.CodeIsPlain | pkg/drivers/mongodb/engine.go:85-97 | the code around the names holds no quote, slash, backslash or NUL |
| Decimal.ReadInvertsPrint | pkg/report/attest.go:48-49 | decimal printing and strict reading are inverse, so lengths are unambiguous |
| Dsse.ReadPaeInvertsPae | pkg/report/attest.go:47-50 | a decoder recovers type and payload from every encoding |
| Dsse.PaeInvertsReadPae | pkg/report/attest.go:47-50 | and accepts nothing but encodings |
| Dsse.PaeIsInjective | pkg/report/attest.go:47-50 | different pairs never share an encoding |
| Dsse.PaeSpells | pkg/report/attest.go:47-50 | the encoding, spelled out as the DSSE protocol has it |
| Signing.Bundle.Sign | pkg/report/sign.go:93-115 | after signing, the file verifies with no pin or with the signer's key pinned, and with no other key |
| Signing.Bundle.Attest | pkg/report/attest.go:55-95 | after attesting, the attestation holds under the signer's key |
| Signing.VerifyAttestation | pkg/report/attest.go:101-154 | accepts exactly when some signature covers the payload's encoding and some subject's digest is the file's |
| Signing.VerifiedHasSigner | pkg/report/bundle.go:31-45 | once the signature verifies, the signer's key is there, verified it, and is the pinned one if any |
| Signing.VerifyBundle | pkg/report/bundle.go:58-94 | the outcome mentions no key directory: the attestation is checked under the key that signed, always, when present; else that is noted; and the fingerprint given is the signer's |
| Signing.VerifyAsks | pkg/report/sign.go:119-150 | a signature is accepted exactly for a readable envelope of the right algorithm, with a key of the right size, the pinned one if any, under which it verifies |
| Signing.SignerKeyAsks | pkg/report/bundle.go:31-45 | the signer's key is the envelope's, if it has the size of a key |
| Signing.AttestationAsks | pkg/report/attest.go:101-154 | an attestation exactly for the right types, any one good signature and any one subject with the file's hash |
| Signing.FoldingMeans | pkg/report/attest.go:148-151 | digests are compared up to the case of letters and no further |
| Signing.SignatureTells | pkg/report/sign.go:93-115 | what is read back from a signature file: algorithm, key, its fingerprint, signature |
| Signing.AttestationTells | pkg/report/attest.go:55-95 | what is read back from an attestation: one signature under the key's fingerprint, and one statement that names the file, gives its hash and carries its contents |
| Provenance.UsesAreApart | pkg/report/attest.go:82 | no JSON object is an encoding, so for evidence the two uses of a key are apart |
| Provenance.VerifiedMeans | pkg/report/sign.go:119-150 | with nothing forged, whatever the file: the envelope's key, the pinned one if any, signed these bytes as a file, or they encode a statement that it attested |
| Provenance.VerifiedWasSigned | pkg/report/sign.go:119-150 | so an accepted file that is no such encoding was signed as a file |
| Provenance.AttestationPassesForASignature | pkg/report/bundle.go:58-70 | the encoding of an attested statement is accepted as a signed file, pinned or not, though the key never signed one |
| Provenance.WhenAcceptanceMeansSigned | pkg/report/sign.go:119-150 | acceptance always means signed as a file exactly for the files that no attestation puts a signature on |
| Provenance.AcceptedMeans | pkg/report/attest.go:126-152 | an accepted attestation: this key attested exactly the bytes in the file, or signed a file that is itself an encoding |
| Provenance.AcceptedWasAttested | pkg/report/attest.go:126-152 | so by a key that signs no encodings it was made for exactly the bytes in the file |
| Provenance.BundleMeans | pkg/report/bundle.go:58-93 | an accepted bundle, by a key that signs no encodings: one and the same key attested these bytes, and signed them unless they are an encoding |
| Provenance.TamperedFileIsRefused | pkg/report/attest.go:142-153 | bytes other than those this key attested are refused, if it signs no encodings |
| Signing.SignThenVerify | pkg/report/sign.go:93-150 | what a signer signs verifies with no pin or its own key pinned, and with no other |
| Signing.AttestThenVerify | pkg/report/attest.go:55-153 | what a signer attests is accepted |
| Provenance.OwnSignaturesAreMade | pkg/report/bundle.go:58-94 | nothing is forged in a bundle that its signer made |
| Provenance.SignAttestVerify | pkg/report/bundle.go:58-94 | sign, attest and verify accepts in full, with the source of the key; and what acceptance proves then holds of what was done |
| Provenance.LawsHoldTogether | pkg/report/sign.go:93-150 | the laws asked of signatures and hash have a model |
| Gate.Evaluate | pkg/report/gate.go:129-179 | sorts the runs in place, newest first, and judges the order that results |
| Gate.SortedRunsLead | pkg/report/gate.go:135-147 | whatever order a sort leaves, the runs looked at are a newest run and a newest verified one |
| Gate.LeadersCanComeFirst | pkg/report/gate.go:135-147 | and every such pair is looked at after some outcome of the sort |
| Gate.OkInEveryOrder | pkg/report/gate.go:129-179 | with ties, all orders pass exactly when every run that could come to the top meets the objective |
| Gate.OkInSomeOrder | pkg/report/gate.go:129-179 | some order passes exactly when some runs that could come to the top meet the objective |
| Gate.WhenTiesDecide | pkg/report/gate.go:129-179 | luck decides exactly when some of the runs that could come to the top meet the objective and some do not |
| Gate.GateDecidesTheObjective | pkg/report/gate.go:129-179 | without ties, OK holds exactly when a run exists, the newest verified or that is waived, a verified one is young enough, and the one leaned on is signed |
| Gate.StatusTells | pkg/report/gate.go:129-179 | with ties or without, the status gives the number of runs, when and where a newest one is, when a newest verified one ended, whether the run leaned on is signed, and each shortcoming exactly when it is there |
| Gate.OrderOfFilesIsIrrelevant | pkg/report/gate.go:129-179 | without ties the status does not depend on the order of the files |
| Gate.TiesCanDecide | pkg/report/gate.go:135 | with ties it can |
| Gate.OneRunIsTheWitness | pkg/report/gate.go:155-177 | asked for age and signature, one single run is verified, fresh and signed |
| Gate.WaivedGateNeedsNoVerifiedRun | pkg/report/gate.go:152-164 | with no age limit and failures waived, OK means only that a run exists |
| Gate.TimeOnlyAddsViolations | pkg/report/gate.go:155-164 | a later clock removes no kind of violation |
| Gate.GoodRunNeverHurts | pkg/report/gate.go:141-177 | one more newest, verified, signed run never fails an OK subject |
| Grouping.GroupFiles | pkg/report/gate.go:86-92 | by drill, a name's group is exactly the files of that drill in file order; by control, it holds each file as often as the file lists the control; and only names that occur have groups |
| Grouping.RunGate | pkg/report/gate.go:69-120 | one status for each required subject, else for each drill or control that occurs, in sorted order, judged by exactly the runs that name it, and the count of failing ones; the caller's list ends up sorted |
| Grouping.SubjectsAreDetermined | pkg/report/gate.go:96-102 | the subjects reported and their order are determined by the files, or by the required subjects |
| Grouping.RunsAddUp | pkg/report/gate.go:86-101 | over covering names without repeats, the runs counted are the files by drill, and by control the controls they list |
| Grouping.ViolationsCountSubjects | pkg/report/gate.go:111-118 | the violations reported are the subjects that have any |
| Grouping.ReportCountsEveryFile | pkg/report/gate.go:94-118 | with no subjects required, run counts by drill sum to the number of files |
| Grouping.MissingSubjectIsReported | pkg/report/gate.go:94-101 | a required subject without evidence is a violation |
| Lexicographic.TotalAtMost | pkg/report/gate.go:102 | the order of names is total, as sorting needs |
| Sorting.Sort | pkg/report/gate.go:135 | an in-place sort that promises a sorted permutation and nothing about ties |
| Controls.BuildControlReport | pkg/report/controls.go:38-72 | each control lists exactly its runs with their measured figures, newest first; files naming none are counted apart |
| Controls.EntriesTell | pkg/report/controls.go:48-70 | one for one, the entries are the runs that declare the control, and each says what its evidence says, field by field |
| Controls.ViewsAgree | pkg/report/controls.go:48-70 | gate and control report agree on count, last run and last verified run of every control |
| PodsReady.PodIsReady | pkg/verify/k8s.go:69-79 | a pod is ready by its first Ready condition |
| PodsReady.WaitReady | pkg/verify/k8s.go:23-67 | passes exactly at the first poll completing three good samples in a row before the deadline, in a live context; ends in time |
| PodsReady.BadSampleResets | pkg/verify/k8s.go:36-61 | a failed, empty or unready sample breaks every stretch across it |
| PodsReady.CrashLoopNeverPasses | pkg/verify/k8s.go:15-18 | pods that are ready two polls out of three never pass |
| Checks.ValidateCheck | pkg/spec/spec.go:480-539 | the problem reported is the first incomplete field, else a count other than one |
| Checks.ProblemMeans | pkg/spec/spec.go:480-539 | a check passes exactly when one field is set and complete |
| Checks.ValidateChecks | pkg/spec/spec.go:428-454 | no fault exactly when some check proves data and every check is one complete check that suits the driver |
| Verify.RunOne | pkg/verify/verify.go:50-118 | the result carries the kind that ran, is skipped only for want of restored data, and passes exactly when engine, cluster and drill bear it out |
| Verify.SmokeAsks | pkg/verify/verify.go:146-197 | a smoke check passes exactly when its one statement returns as many rows as expected, by each comparison; without an expectation at least one |
| Verify.CanaryAsks | pkg/verify/verify.go:166-175 | a canary passes exactly when its one statement returns the value expected |
| Verify.RunChecks | pkg/verify/verify.go:42-48 | one such result for each check, in order |
| Verdict.Evidence.Finalize | pkg/drill/drill.go:231-260 | objectives and verdict from outcome and results, with the data guard |
| Verdict.Evidence.Conclude | pkg/drill/drill.go:193-219 | for a validated drill `verified` is exactly: restored, within both objectives, every check holds; never without a data check that got the answer it asked for; and over an empty restore exactly if nothing satisfies every check |
| Verdict.VerdictIsExact | pkg/drill/drill.go:236-257 | the same as a law of the results; the data guard takes nothing from a validated drill |
| Verdict.VerifiedMeansAnAnswer | pkg/drill/drill.go:252-257 | validated or not, in a verified drill a data check got the answer it asked for from an engine or a cluster |
| Verdict.WhenNothingIsVerified | pkg/spec/spec.go:431-443 | a validated drill reports an empty restore as verified exactly when the objectives are met and nothing satisfies each check, as the drill file tells |
| Verdict.RowCountWithoutMinimum | pkg/spec/spec.go:139-142 | it happens: a row count without a minimum is valid and holds on an empty database |
| Verdict.WhenTheGuardDecides | pkg/drill/drill.go:252-257 | with all passed, the guard refuses exactly drills none of whose checks runs as a data check |
| Verdict.TwoFieldsHideTheData | pkg/spec/spec.go:543-545 | a check that counts as proving data and never looks at any |
| Verdict.ChecksSuitTheDriver | pkg/spec/spec.go:448-453 | a validated Velero drill asks the cluster only, any other the engine only |
| Layers.MaxEncryptionMagic | pkg/source/decrypt.go:61-69 | the window is the longest magic of the table |
| Layers.HeadDecides | pkg/source/compress.go:48-58 | the window decides as the whole artifact would |
| Layers.OneMagicAtMost | pkg/source/compress.go:28-35 | no artifact begins with two compression magics, and detection names the one |
| Layers.CompressedIsNotEncrypted | pkg/source/decrypt.go:47-57 | a compressed artifact is never taken for an encrypted one |
| Layers.OneEncryptionAtMost | pkg/source/decrypt.go:40-57 | detection names exactly the encryption whose header or session key packet the artifact begins with |
| Streams.CopyLimited | pkg/source/compress.go:101-114 | however chunks arrive and however much fits: everything within the limit, limit and one byte beyond it, cut short with a failure where the destination is full; with 64-bit arithmetic |
| Streams.WhenTheLimitIsKept | pkg/source/compress.go:101-114 | success exactly for a clean stream that fits, complete, at every limit but the largest |
| Streams.HundredfoldFits | pkg/source/compress.go:89-97 | the hundredfold cap is that exactly up to 92233720368547758 bytes |
| Streams.Drain | pkg/source/source.go:355-362 | a full drain fails exactly when the stream does or its total exceeds the limit, and delivers what the fetch takes it to |
| Streams.LimitedBuffer.Write | pkg/sandbox/buffer.go:16-25 | keeps the first bytes and reports a full write |
| Streams.WriteAll | pkg/sandbox/buffer.go:16-25 | any series of writes leaves the first bytes of all that was written |
| Fetch.ChooseFile | pkg/source/source.go:84-90 | the path read is the one given, or the newest usable file under it |
| Fetch.FetchFile | pkg/source/source.go:83-143 | the whole fetch of a file, selection, time of the backup and every error included |
| Fetch.ChooseKey | pkg/source/source.go:180-184 | the key read is the one given, or the newest under it |
| Fetch.FileIsDetermined | pkg/source/source.go:146-169 | which file is read is determined by the directory, ties included |
| Fetch.KeyIsDetermined | pkg/source/source.go:264-298 | which key is read is determined by the listing, ties included |
| Fetch.FetchObject | pkg/source/source.go:171-235 | the same for an object, whose time is the store's or else the present |
| Fetch.Spool | pkg/source/source.go:319-333 | the whole bounded stream or nothing |
| Fetch.UnwrapUndoes | pkg/source/source.go:108-120 | for every pipeline and payload the original bytes and exactly the layers applied come back, exactly when the payload is not mistaken for one layer more |
| Fetch.FetchUndoesThePipeline | pkg/source/source.go:108-142 | a file made by any pipeline is fetched exactly when artifact and payload are within their bounds and there is room; then the local file holds the original payload, at all limits but the largest, and the time of the backup is the artifact's |
| Fetch.BoundsInNumbers | pkg/source/compress.go:89-97 | an explicit bound on expansion is the bound whatever the transfer cap, without it a hundred times the cap while that fits, without either only room counts |
| Fetch.CopiesAreBounded | pkg/source/compress.go:89-114 | whatever tools and stores deliver, nothing fetched through a temporary file is longer than that |
| Fetch.WhenFileIsFetched | pkg/source/source.go:91-133 | there is a backup exactly for a file that opens, within the cap, with layers that come undone, and if there was one, a clean end within the bounds |
| Fetch.WhenObjectIsFetched | pkg/source/source.go:189-222 | the same for an object, announced within the cap |
| Fetch.ForgottenDecryptIsRefused | pkg/source/decrypt.go:84-90 | an encrypted backup without a decrypt block is refused |
| Fetch.UnknownDecryptIsRefused | pkg/source/decrypt.go:95-103 | a decrypt block of an unknown type is refused, for files and objects |
| Fetch.NothingToReadIsRefused | pkg/source/decrypt.go:78-82 | where nothing can be read, before decryption or after it, nothing is fetched |
| Fetch.PlainFileIsUsedInPlace | pkg/source/source.go:120-124 | a file without any layer's mark is used in place, if there is anything to read |
| Fetch.ObjectAgreesWithFile | pkg/source/source.go:189-234 | file and object give the same backup; the object alone is refused exactly when it is announced too large, or has no layer and its size exceeds the bound on expansion or the room |
| Fetch.PlainObjectCanBeRefused | pkg/source/source.go:212-216 | one plain backup that passes as a file and is refused as an object |
| Fetch.OversizedObjectIsRefused | pkg/source/source.go:193-199 | an oversized plain object never gets through, whatever length is announced; at the largest limit an empty file may come in its place |
| Fetch.LayersTextIsUnambiguous | pkg/source/source.go:50-59 | no two combinations of layers read alike |
| Discovery.LatestObject | pkg/source/source.go:264-298 | the first newest candidate of the whole listing, or the error its length, a failed page or the lack of candidates calls for |
| Discovery.PagesDoNotMatter | pkg/source/source.go:271-293 | how the listing was cut into pages does not matter |
| Discovery.WhenFound | pkg/source/source.go:276-297 | something is selected exactly when the listing came through, was not too long and held a candidate |
| Discovery.FoundIsNewest | pkg/source/source.go:281-292 | what is found is a matching object with contents that is no folder, and none such is newer; nothing is found only if there is none |
| Discovery.LatestFile | pkg/source/source.go:146-169 | the first newest usable file, and none exactly when none is usable |

## Left out

- Interleavings inside classes: Dafny methods run without interference, so what the two threads of a drill and the many writers of a status do to each other is proved on state machines over values; the classes beside them are the same operations run by one thread, and `BodyIsTearDown` ties the two.
- Timing of the watchdog: its timer may fire at any moment after it is armed, which includes every real one; that it does fire after the time to live is not claimed.
- Assumptions about the servers: ids and generated names are new, Docker refuses to remove a network with a running container on it, the Velero server creates no further namespaces, and namespace termination, once begun, counts as gone.
- Requests other than creations and removals, such as pulls, readiness waits, port-forwards and restores, are calls that succeed or fail; a sweep whose listing of a later kind fails, or which runs where Velero is not installed, is not modelled.
- Sweep.SweepKind: leases are instants; a label that does not parse as RFC 3339 falls back to the age threshold in the code and is not modelled.
- Reconcile.Reconcile: conversion of the object to a drill, events and logs, reading the object and a missing object are left out; the observed read is assumed to show the last committed status, as the work queue gives it; cron is a next-tick function, and parsing its syntax a case of the plan. Wake-ups by the watch on the object, which its own status updates also cause, are left out.
- Status.PatchStatus: the number of attempts, five, is the default of the client library, which is not part of this model.
- Shell.ReadQuotedWord: the reader refuses expansions, double quotes, patterns and comments instead of modelling them, and strings are characters, so invalid UTF-8 is not covered; the same holds for `JavaScript.ReadEscaped`, whose reader refuses numeric and Unicode escapes.
- The other shell and mongosh commands of the MongoDB driver, and the restore commands of all drivers: sequences of calls to external programs.
- Ed25519, SHA-256, hexadecimal, base64 and JSON: functions with the laws stated in `Signing`; a wrong key, a malformed file and a failed read appear as their failing results.
- Provenance.AcceptedWasAttested: by a key that signed a file which is itself an encoding; `AcceptedMeans` says what is then known. It is assumed throughout that a signature beside the evidence that verifies anything was made with the key it verifies under.
- Creation and storage of key pairs, PEM and file permissions.
- Gate.Evaluate: the text of violations, the age as words, and the saturation of time differences near the ends of the 64-bit range are left out; a status carries the violations as data.
- Scanning the evidence directory: the gate and the control report are given the list of files.
- Verify.RunOne: the details of results as text; regular expressions are parameters; an engine's and a cluster's answers are arbitrary and may change between checks.
- Checks.ValidateChecks: the rest of a drill's validation, of format, driver, source, sandbox and sinks, is settled field by field and has no part in the verdict.
- Verdict.WhenNothingIsVerified: an empty database answers 0 to counts, has no scalar and one checksum; engines that answer otherwise are not covered.
- Verdict.Evidence.Finalize: writing, signing, reporting and sending evidence after the verdict.
- Streams.CopyLimited: readers that return no bytes and no error are excluded, and the sizes of streams stay within 64 bits.
- Fetch.FetchFile: gzip, zstd, bzip2, age and gpg are decoders that undo their encoders, with the choice of the armoured age format inside the decoder; names and removal of temporary files, parsing of S3 addresses and making the client are left out, and the address of an object is its key.
- Fetch.FetchObject: it reads what the counting reader delivers, which `Drain` shows for readers that read to the end; a decoder that stops earlier may meet less of it.
- Fetch.OversizedObjectIsRefused: states it for plain objects, since a decoder may stop reading before the end of its input.
- Discovery.LatestObject: glob matching is a parameter; objects without a key or a time, which the store does not list, are left out.
- Command line, HTML, metrics, notifications, history, schema and templates: formatting and transport only.
