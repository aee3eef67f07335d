# Falcon operator: the Building phase and the package bootstrap

This project models two parts of the CrowdStrike Falcon operator for
Kubernetes and proves properties of them.

- **The Building phase of the `FalconConfig` reconciler**
  (`controllers/falcon/phase_building.go`).
  - The reconciler finds the namespace's builder push credential: the first
    `kubernetes.io/dockercfg` secret that is annotated for the `builder`
    service account and carries a `.dockercfg` entry.
  - It writes that credential to `/tmp/.dockercfg` with mode 0600.
  - It reads the namespace's image stream and pushes the Falcon container
    image to the stream's repository.
  - It then advances the resource's status to `Configuring`. If any step
    fails, it marks the resource `Done` and stores the wrapped error text.
- **The operator's package-level bootstrap** (`pkg/common/vars.go`).
  - Default values are set in declaration order.
  - A certificate authority is generated from the namespace and validity.
  - `init` replaces the namespace with the trimmed contents of the
    service-account namespace file.

Everything the reconciler asks of the outside world is answered by an
`Environment` value, which is a parameter of each operation:

- the secret list (or the list error);
- the outcome of the file write;
- the image stream (or its error);
- the outcome of the image push;
- the outcome of the status update.

The reconciler class keeps a ghost trace of the calls it makes, in order,
and a ghost map of the files it has written. Contracts state both.

Files:

- `wrappers.dfy`: `Option` and `Result`. An error is represented by its text.
- `go_strings.dfy`: Go's `strings.TrimSpace` over the full Unicode white-space set.
- `dockercfg.dfy`: `getDockercfg`. This has the secret qualification checks,
  the loop as a method, and its specification function with its lemmas.
- `phase_building.dfy`: `ensureDockercfg`, `error` and `phaseBuildingReconcile`
  as methods of a `FalconConfigReconciler` class. They are proved against the
  specification function `BuildingSpec`.
- `common.dfy`: the package variables as a class, `init`, and the CA-ordering
  finding.

Choices the code makes that the model follows:

- **The wrapped error message.** The message and the cause are joined by
  one space, as `"%s %w"` formats them (phase_building.go:81). There is no
  colon (`Wrap`).
- **Secret data.** Only a nil `Data` map is rejected up front
  (phase_building.go:59). An empty non-nil map fails the `.dockercfg` key
  check instead (phase_building.go:70-73).
- **Which secret is chosen.** The first qualifying secret in list order is
  taken (phase_building.go:74). The order of the list decides the result
  only when several secrets qualify: `SingleQualifyingIsOrderIndependent`
  and `NoQualifyingIsOrderIndependent` prove that with one or no
  qualifying secret, every reordering gives the same result.

## Model

| member | source | states |
|---|---|---|
| Dockercfg.Qualifies | controllers/falcon/phase_building.go:59-73 | the four checks of the loop in source order: data non-nil, type `kubernetes.io/dockercfg`, annotations non-nil with the service-account annotation equal to `builder` (a missing key reads as ""), and a `.dockercfg` key in the data; its meaning is proved in `QualifiesWithoutNilChecks` |
| Dockercfg.FirstDockercfg | controllers/falcon/phase_building.go:58-75 | the for-range search: the payload of the first listed secret that passes all four checks, or none; its contract is `FirstDockercfgFinds` |
| Dockercfg.FirstDockercfgFinds | controllers/falcon/phase_building.go:58-75 | the scan finds a credential exactly when some secret passes all four checks (data non-nil, dockercfg type, annotated for `builder`, has a `.dockercfg` key); what it finds is the payload of the first such secret |
| Dockercfg.FirstDockercfgAt | controllers/falcon/phase_building.go:58-74 | when secret i is the first that qualifies, its `.dockercfg` bytes are returned, whatever follows it |
| Dockercfg.SkipRejected | controllers/falcon/phase_building.go:59-73 | secrets that fail a check and come before the rest of the list do not change the outcome (each `continue`) |
| Dockercfg.RemoveRejected | controllers/falcon/phase_building.go:59-73 | removing a secret that fails a check from anywhere in the list does not change the outcome |
| Dockercfg.SingleQualifyingIsOrderIndependent | controllers/falcon/phase_building.go:58-75 | when exactly one secret qualifies, any reordering of the list yields the same credential |
| Dockercfg.NoQualifyingIsOrderIndependent | controllers/falcon/phase_building.go:58-77 | when no secret qualifies, no reordering of the list finds a credential either |
| Dockercfg.QualifiesWithoutNilChecks | controllers/falcon/phase_building.go:59-73 | a secret qualifies exactly when its type is `kubernetes.io/dockercfg`, its annotation names `builder` and its data has a `.dockercfg` key, reading a nil map as empty, so the nil checks reject nothing more; a qualifying secret's data is non-empty |
| Dockercfg.NotFoundMessage | controllers/falcon/phase_building.go:77 | the not-found error text starts with "Cannot find suitable secret in namespace " and names the namespace right after it |
| Dockercfg.LookupDockercfg | controllers/falcon/phase_building.go:51-78 | the result pair of `getDockercfg`: the list error with empty bytes, the first qualifying payload with no error, or empty bytes with the not-found error; its contract is `LookupDockercfgContract` |
| Dockercfg.LookupDockercfgContract | controllers/falcon/phase_building.go:51-78 | a list error is passed through unchanged with empty bytes; otherwise the credential is returned with no error, or empty bytes and an error that names the namespace exactly when no secret qualifies |
| Dockercfg.GetDockercfg | controllers/falcon/phase_building.go:51-78 | the loop returns exactly the payload and error of the specification `LookupDockercfg`; the loop invariant says the answer still ahead equals the answer for the whole list |
| Dockercfg.SingleBuilderSecretFound | controllers/falcon/phase_building.go:58-74 | one qualifying builder secret holding "XYZ" yields those bytes and no error |
| Dockercfg.EmptyNamespaceNotFound | controllers/falcon/phase_building.go:77 | an empty secret list yields empty bytes and the not-found error for that namespace |
| GoStrings.TrimLeftSpace | pkg/common/vars.go:21 | the result is a suffix of the input, everything dropped is white space, and the result does not start with white space |
| GoStrings.TrimRightSpace | pkg/common/vars.go:21 | the result is a prefix of the input, everything dropped is white space, and the result does not end with white space |
| GoStrings.TrimSpace | pkg/common/vars.go:21 | the result is a slice of the input with nothing but white space before and after it, it neither starts nor ends with white space, and it is empty exactly when the input is all white space; these determine the result uniquely |
| GoStrings.TrimLeftSpaceAt | pkg/common/vars.go:21 | when all of s[..i] is white space and s[i] is not, left trimming yields s[i..] |
| GoStrings.TrimRightSpaceAt | pkg/common/vars.go:21 | when all of s[j..] is white space and s[j-1] is not, right trimming yields s[..j] |
| GoStrings.TrimSpaceAt | pkg/common/vars.go:21 | reference characterisation: for white-space padding s[..i] and s[j..] around a core that neither starts nor ends with white space, TrimSpace yields exactly s[i..j] |
| GoStrings.TrimSpaceIdempotent | pkg/common/vars.go:21 | trimming trimmed text changes nothing |
| PhaseBuilding.Wrap | controllers/falcon/phase_building.go:81 | the text of `fmt.Errorf("%s %w")`: the message, one space, then the cause; never empty |
| PhaseBuilding.WriteFileEffect | controllers/falcon/phase_building.go:48 | after the write the path holds exactly the written bytes; the mode is the requested one for a new file and the old one for an existing file; no other file changes |
| PhaseBuilding.EnsureDockercfgSpec | controllers/falcon/phase_building.go:43-49 | the credential step: list, and only when a credential was found write it to /tmp/.dockercfg with 0600; its error and calls; its contract is `EnsureDockercfgWritesLocatedBytes` |
| PhaseBuilding.EnsureDockercfgWritesLocatedBytes | controllers/falcon/phase_building.go:43-49 | the credential step lists the namespace's secrets; when a credential is found it writes exactly those bytes to /tmp/.dockercfg with mode 0600 and returns the write's error; otherwise nothing is written and the lookup error is returned |
| PhaseBuilding.FilesAfterEnsure | controllers/falcon/phase_building.go:44-48 | the files after the credential step: the located bytes written to /tmp/.dockercfg with 0600 when the lookup and the write both succeed, and the files unchanged otherwise; the `files` ensures of `EnsureDockercfg` and `PhaseBuildingReconcile` are stated against it |
| PhaseBuilding.Failed | controllers/falcon/phase_building.go:80-87 | the outcome of `error`: status Done with the wrapped message, `ctrl.Result{}`, the wrapped message returned as the error, and one status update carrying that status after the calls already made; `BuildingSpec` is built on it |
| PhaseBuilding.BuildingSpec | controllers/falcon/phase_building.go:17-41 | the pass never asks for a requeue and always leaves the Building phase; it reaches Configuring with an empty message exactly when the credential, image stream and push steps all succeed, and then returns the status update's error; otherwise it is Done with a non-empty message that equals the returned error; the status update is the last call |
| PhaseBuilding.StatusWrittenOnce | controllers/falcon/phase_building.go:17-41 | every pass sends exactly one status update, whichever branch it takes |
| PhaseBuilding.CredentialFailureShortCircuits | controllers/falcon/phase_building.go:20-23 | when the credential step fails, the image stream is not read and nothing is pushed; the status is Done with "Cannot find dockercfg secret from the current namespace" followed by the cause |
| PhaseBuilding.ImageStreamFailureShortCircuits | controllers/falcon/phase_building.go:24-27 | when the image stream cannot be read, nothing is pushed and the status is Done with "Cannot access image stream" followed by the cause |
| PhaseBuilding.RefreshFailureReported | controllers/falcon/phase_building.go:29-33 | when the push fails after the earlier steps succeed, the status is Done with "Cannot refresh Falcon Container Image" followed by the cause |
| PhaseBuilding.RefreshFollowsCredentialWrite | controllers/falcon/phase_building.go:20-30 | the push happens only after the credential file was written and the image stream was read, and it targets the stream's repository |
| PhaseBuilding.RegistryUnreachableScenario | controllers/falcon/phase_building.go:29-33 | a push failing with "registry unreachable" leaves Phase Done and ErrorMessage "Cannot refresh Falcon Container Image registry unreachable" |
| PhaseBuilding.RefreshMessageText | controllers/falcon/phase_building.go:81 | the push-failure message followed by the cause "registry unreachable", joined by one space |
| PhaseBuilding.FalconConfigReconciler.WriteFile | controllers/falcon/phase_building.go:48 | the write is recorded as a call; the files change as `WriteFileEffect` says when the write succeeds, and not at all when it fails |
| PhaseBuilding.FalconConfigReconciler.EnsureDockercfg | controllers/falcon/phase_building.go:43-49 | error, calls and files are those of the specification of the credential step |
| PhaseBuilding.FalconConfigReconciler.GetImageStream | controllers/falcon/phase_building.go:24 | reads the namespace's image stream: the environment's answer is returned and the read is recorded as the next call |
| PhaseBuilding.FalconConfigReconciler.Refresh | controllers/falcon/phase_building.go:29-30 | pushes the image to the given repository: the environment's answer is returned and the push is recorded with that repository |
| PhaseBuilding.FalconConfigReconciler.UpdateStatus | controllers/falcon/phase_building.go:39 | sends the resource's current status (also used by `error` at :85): the environment's answer is returned and the update is recorded carrying that status |
| PhaseBuilding.FalconConfigReconciler.ErrorTransition | controllers/falcon/phase_building.go:80-88 | the status becomes Done with the wrapped message, which is non-empty; one status update is sent and its failure is ignored; the wrapped message is returned with no requeue |
| PhaseBuilding.FalconConfigReconciler.PhaseBuildingReconcile | controllers/falcon/phase_building.go:17-41 | the new status, result, error and call sequence are those of `BuildingSpec`, and the files are those the credential step leaves |
| PhaseBuilding.RepeatedBuilding | controllers/falcon/phase_building.go:17-41 | two passes against the same cluster state leave the same status and return the same error |
| Common.ResolveNamespace | pkg/common/vars.go:18-24 | an unreadable namespace file leaves the namespace unchanged; otherwise the namespace is a slice of the file's text with only white space around it, without white space at either end, and empty exactly when the file holds only white space |
| Common.GenCA | pkg/common/vars.go:15 | the CA, reduced to the namespace identity and validity it is generated from |
| Common.PackageVars.constructor | pkg/common/vars.go:8-16 | the package variables take their declared defaults, and the CA is generated from the default namespace and validity |
| Common.PackageVars.Init | pkg/common/vars.go:18-24 | `init` reads the service-account namespace file `/var/run/secrets/kubernetes.io/serviceaccount/namespace` (recorded in the ghost read trace) and changes no variable but the namespace, which it sets to the resolved namespace |
| Common.InitializePackage | pkg/common/vars.go:8-24 | after variables then `init`, the namespace is the resolved one but the CA is still the one for "falcon-operator" with 3650 days; the other variables keep their defaults, and the namespace file is the one file read |
| Common.ResolvedNamespaceIsTrimmed | pkg/common/vars.go:19-22 | `init` keeps the namespace free of white space at either end: if it had none before, it has none after, whether or not the file could be read |
| Common.TeamNamespaceFile | pkg/common/vars.go:19-22 | a namespace file holding "  team-ns\n" gives the namespace "team-ns" |
| Common.BlankNamespaceFile | pkg/common/vars.go:20-22 | any namespace file holding only white space gives an empty namespace, with no fallback to the default |
| Common.CaIgnoresNamespaceFile | pkg/common/vars.go:12-22 | as written, running the bootstrap (`InitializePackage`) with "  team-ns\n" in the namespace file leaves the operator in "team-ns" and the CA issued for "falcon-operator", so the two differ |
| Common.IntendedCA | pkg/common/vars.go:15 | the intended CA uses the resolved namespace, which is trimmed, and the default validity; with an unreadable file it is the default CA |
| Common.InitializePackageNamespaceFirst | pkg/common/vars.go:8-24 | with the namespace resolved first, the CA's namespace equals the operator's namespace |
| Common.IntendedCaFollowsNamespaceFile | pkg/common/vars.go:15-22 | with the corrected order, "  team-ns\n" gives a CA for "team-ns", and an unreadable file gives a CA for the default namespace |

## Left out

- The Kubernetes API client, controller-runtime, the request context and
  the logger are not modelled.
  - The secret list, the image stream, the push outcome and the status
    update outcome are answers in `Environment`.
  - Retries and requeue timing beyond `ctrl.Result{}` are not part of the
    Building phase.
- `r.imageStream` (which may create the image stream) is defined in another
  file and is not part of this model. Only its result is used.
- `falcon_container.NewImageRefresher` and the image build and push are not
  part of this model.
  - The Falcon API configuration it receives is not modelled.
  - The trace records only the repository the push targets.
- Real file-system I/O is not modelled.
  - `ioutil.WriteFile` is modelled by its effect on a ghost file map.
  - The process umask is not modelled.
  - A write that fails part-way is modelled as leaving the file unchanged.
  - Reading the namespace file is an input `Result<string>`.
  - Decoding the file's bytes as text (`string(nsBytes)`, which may hold
    invalid UTF-8) is not modelled: the contents arrive as characters.
- `GenCA`'s key generation and certificate signing are not modelled. The CA
  is reduced to the namespace and validity it was generated from.
- Error values are reduced to their text. `%w` wrapping chains
  (`errors.Is`/`errors.As`) are not modelled.
- The `FalconConfig` API types are not part of this model.
  - `Phase` holds only the phase this handler serves and the two it writes.
  - The status holds only `Phase` and `ErrorMessage`.
- Concurrent reconciles and shared mutation of the package variables are
  not modelled.

## Findings

| source | as written | input that shows it | evidently intended | confidence | as-written member | corrected member |
|---|---|---|---|---|---|---|
| pkg/common/vars.go:12-24 | `CA` is generated in the package `var` block. Go evaluates that block before `init`, so the CA always uses the default namespace "falcon-operator", even after `init` overrides `FalconOperatorNamespace` | a namespace file holding "  team-ns\n": the operator's namespace becomes "team-ns" while the CA is issued for "falcon-operator" | the CA is generated for the namespace the operator runs in, as resolved by `init` | medium; not executed | Common.InitializePackage, Common.CaIgnoresNamespaceFile | Common.InitializePackageNamespaceFirst, Common.IntendedCaFollowsNamespaceFile |
