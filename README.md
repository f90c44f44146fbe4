# Finalizer-cleanup controller, modelled in Dafny

The controller of scenario 04-pod-terminating watches a Kubernetes cluster for pods that
are stuck in "Terminating": the API server has set their deletion timestamp, but a finalizer
(by default `example.com/block-deletion`) still blocks deletion. Every poll cycle it lists the
pods in scope (one namespace, or all of them), keeps those that qualify, and sends each one
the JSON merge patch `{"metadata":{"finalizers":null}}` through `kubectl patch --type=merge`.

The model has two modules:

- `MergePatch` (`merge_patch.dfy`): JSON values and the MergePatch algorithm of RFC 7386,
  section 2. This is what the patch document means. It proves that a patch is idempotent, and
  that a member set to `null` is removed while the other members are kept.
- `FinalizerCleanup` (`controller.dfy`) holds the rest:
  - pods and their metadata;
  - the `FINALIZER_NAME` and `NAMESPACE` settings, with Python's `str.strip()` written out;
  - the predicate `should_clean` (`ShouldClean`);
  - the namespaced and cluster-wide listings (`ListNamespaced`, `Enumerate`);
  - the selector `list_stuck_pods`, as the specification function `Stuck` and the loop method
    `ListStuckPods`;
  - the effect of the patch on one pod (`ClearFinalizers`), proved equal to RFC 7386 merge
    patching of the pod's JSON form;
  - the cluster as a class holding a map from `(namespace, name)` to pod, with one patch
    attempt (`Cluster.Patch`) whose success the model does not decide;
  - one pass of the `while True` body of `run` (`RunCycle`).

What the cycle is proved to do:

- It attempts every selected target exactly once, in selection order, whatever the earlier
  attempts reported: the cluster's log of attempts grows by exactly the selected targets.
- A failed attempt (kubectl exits non-zero, or is not installed) changes nothing and does not
  stop the rest.
- After the cycle, a pod whose patch succeeded has lost its whole finalizer list and nothing
  else. Every other pod is untouched (`ApplyPatchesClosedForm`).
- A later cycle that lists the new state does not select that pod again
  (`PatchedNotReselected`).

The patch removes the entire finalizer list, not only the configured finalizer. The module
docstring says the controller "removes that finalizer", but a pod that also carries an unrelated
finalizer loses it too. `ClearFinalizers` states this (`FinalizerList(r) == []`), and the model
keeps the code's behaviour.

Two behaviours of the code that a reader might expect otherwise:

- A patch on a pod that is no longer there makes `kubectl` exit non-zero, so
  `remove_finalizer_kubectl` returns `False`. The model reports failure there. It does not
  treat "not found" as success.
- A failure to list pods is not caught in `run`. The model has no enumeration-failure path.

## Model

| member | source | states |
|---|---|---|
| `MergePatch.Apply` | Infrastructure/k8s-tooling/forced-crash-scenarios/04-pod-terminating/finalizer-cleanup-controller/controller.py:50-51 | RFC 7386 merge patch: a non-object patch replaces the target, and an object patch always yields an object |
| `MergePatch.ApplyMembers` | Infrastructure/k8s-tooling/forced-crash-scenarios/04-pod-terminating/finalizer-cleanup-controller/controller.py:50-51 | an object patch decides each result member: null in the patch removes it, another patch value is merged into the target member, and a member the patch does not mention is kept unchanged |
| `MergePatch.ApplyIdempotent` | Infrastructure/k8s-tooling/forced-crash-scenarios/04-pod-terminating/finalizer-cleanup-controller/controller.py:50-51 | applying the same merge patch twice gives the same document as applying it once |
| `MergePatch.ApplyNullMember` | Infrastructure/k8s-tooling/forced-crash-scenarios/04-pod-terminating/finalizer-cleanup-controller/controller.py:50 | a patch `{name: null}` turns an object into the same object without `name` |
| `MergePatch.ApplySingleMember` | Infrastructure/k8s-tooling/forced-crash-scenarios/04-pod-terminating/finalizer-cleanup-controller/controller.py:50 | a patch with one non-null member merges it into that member of the target and keeps all other members |
| `FinalizerCleanup.SkipLeading` | Infrastructure/k8s-tooling/forced-crash-scenarios/04-pod-terminating/finalizer-cleanup-controller/controller.py:24 | the index returned is the first non-whitespace character at or after the start index (or the end), and everything skipped is whitespace |
| `FinalizerCleanup.SkipTrailing` | Infrastructure/k8s-tooling/forced-crash-scenarios/04-pod-terminating/finalizer-cleanup-controller/controller.py:24 | the index returned is just past the last non-whitespace character before the end index and not before the lower bound, and everything skipped is whitespace |
| `FinalizerCleanup.Strip` | Infrastructure/k8s-tooling/forced-crash-scenarios/04-pod-terminating/finalizer-cleanup-controller/controller.py:24 | `str.strip()`: empty exactly when the input is all whitespace; otherwise it neither starts nor ends with whitespace, and it is a contiguous piece of the input with only whitespace before and after it. Whitespace is the set Python's `str.isspace` accepts, given as the range table `Whitespace`: U+0009–000D, U+001C–0020, U+0085, U+00A0, U+1680, U+2000–200A, U+2028–2029, U+202F, U+205F, U+3000 |
| `FinalizerCleanup.NormalizeNamespace` | Infrastructure/k8s-tooling/forced-crash-scenarios/04-pod-terminating/finalizer-cleanup-controller/controller.py:24 | the setting is `None` exactly when it is unset, empty or all whitespace; otherwise it is the stripped, non-empty value |
| `FinalizerCleanup.LoadSettings` | Infrastructure/k8s-tooling/forced-crash-scenarios/04-pod-terminating/finalizer-cleanup-controller/controller.py:23-24 | the finalizer is `FINALIZER_NAME` when set, otherwise `example.com/block-deletion`; the namespace scope follows `NormalizeNamespace` |
| `FinalizerCleanup.ShouldClean` | Infrastructure/k8s-tooling/forced-crash-scenarios/04-pod-terminating/finalizer-cleanup-controller/controller.py:36-42 | false without metadata, with a missing or empty finalizer list, or without a deletion timestamp; true exactly when the pod is marked for deletion and the configured finalizer is an exact member of its list |
| `FinalizerCleanup.ListNamespaced` | Infrastructure/k8s-tooling/forced-crash-scenarios/04-pod-terminating/finalizer-cleanup-controller/controller.py:67-68 | the namespaced listing holds exactly the listed pods of that namespace, and no more pods than the cluster-wide listing |
| `FinalizerCleanup.Enumerate` | Infrastructure/k8s-tooling/forced-crash-scenarios/04-pod-terminating/finalizer-cleanup-controller/controller.py:67-70 | with a (truthy) namespace set, exactly the listed pods of that namespace are enumerated; otherwise all listed pods are |
| `FinalizerCleanup.Stuck` | Infrastructure/k8s-tooling/forced-crash-scenarios/04-pod-terminating/finalizer-cleanup-controller/controller.py:71-74 | the selection has at most one target per listed pod |
| `FinalizerCleanup.StuckExactly` | Infrastructure/k8s-tooling/forced-crash-scenarios/04-pod-terminating/finalizer-cleanup-controller/controller.py:71-73 | sound and complete: every selected target names a listed pod that qualifies, and every listed pod that qualifies has its target selected |
| `FinalizerCleanup.StuckAppend` | Infrastructure/k8s-tooling/forced-crash-scenarios/04-pod-terminating/finalizer-cleanup-controller/controller.py:71-73 | selection preserves list order: the targets of `a + b` are the targets of `a` followed by those of `b` |
| `FinalizerCleanup.ListStuckPods` | Infrastructure/k8s-tooling/forced-crash-scenarios/04-pod-terminating/finalizer-cleanup-controller/controller.py:64-74 | the loop that appends to `stuck` returns exactly `Stuck` of the pods enumerated in the configured scope |
| `FinalizerCleanup.ClearFinalizers` | Infrastructure/k8s-tooling/forced-crash-scenarios/04-pod-terminating/finalizer-cleanup-controller/controller.py:47-51 | the patched pod keeps its identity and deletion mark, has no finalizers left (unrelated ones included), and qualifies for no finalizer at all |
| `FinalizerCleanup.ClearFinalizersIsMergePatch` | Infrastructure/k8s-tooling/forced-crash-scenarios/04-pod-terminating/finalizer-cleanup-controller/controller.py:47-51 | RFC 7386 merge patching of the pod's JSON with `{"metadata":{"finalizers":null}}` gives exactly the JSON of `ClearFinalizers`: no other field changes |
| `FinalizerCleanup.ClearFinalizersIdempotent` | Infrastructure/k8s-tooling/forced-crash-scenarios/04-pod-terminating/finalizer-cleanup-controller/controller.py:50 | patching a pod twice leaves it as patching it once, both on the pod model and on its JSON form |
| `FinalizerCleanup.PatchEffect` | Infrastructure/k8s-tooling/forced-crash-scenarios/04-pod-terminating/finalizer-cleanup-controller/controller.py:53-61 | one attempt keeps the set of pods and keeps every pod stored under its own namespace and name |
| `FinalizerCleanup.ApplyPatches` | Infrastructure/k8s-tooling/forced-crash-scenarios/04-pod-terminating/finalizer-cleanup-controller/controller.py:84-87 | a sequence of attempts keeps the set of pods and keeps every pod stored under its own namespace and name |
| `FinalizerCleanup.ApplyPatchesClosedForm` | Infrastructure/k8s-tooling/forced-crash-scenarios/04-pod-terminating/finalizer-cleanup-controller/controller.py:84-87 | after a cycle, a pod with at least one successful attempt is its cleared self; every other pod is unchanged |
| `FinalizerCleanup.NotSelectedUnlessQualifying` | Infrastructure/k8s-tooling/forced-crash-scenarios/04-pod-terminating/finalizer-cleanup-controller/controller.py:71-73 | a pod that does not qualify in the current state is never selected from a listing of that state, in any scope |
| `FinalizerCleanup.PatchedNotReselected` | Infrastructure/k8s-tooling/forced-crash-scenarios/04-pod-terminating/finalizer-cleanup-controller/controller.py:84-87 | a target whose patch succeeded in a cycle is not selected by the next cycle listing the resulting state |
| `FinalizerCleanup.Cluster.Patch` | Infrastructure/k8s-tooling/forced-crash-scenarios/04-pod-terminating/finalizer-cleanup-controller/controller.py:45-61 | success implies the pod existed; on success exactly that pod's finalizers are cleared; on failure nothing changes; the attempt is appended to the cluster's attempt log whatever it reports |
| `FinalizerCleanup.PatchAll` | Infrastructure/k8s-tooling/forced-crash-scenarios/04-pod-terminating/finalizer-cleanup-controller/controller.py:84-87 | every target gets exactly one attempt, in order, whatever earlier attempts reported (the attempt log grows by exactly `targets`); success is reported only for pods that existed; the new cluster state is the old state with the reported attempts applied in order |
| `FinalizerCleanup.RunCycle` | Infrastructure/k8s-tooling/forced-crash-scenarios/04-pod-terminating/finalizer-cleanup-controller/controller.py:83-87 | the targets are `Stuck` of the pods enumerated in the configured scope; every target gets exactly one attempt, in order, whatever earlier attempts reported (the attempt log grows by exactly the targets); success is reported only for pods that existed; the new cluster state is the old state with the reported attempts applied in order |

## Left out

- `load_config` and the Kubernetes client calls are network I/O. A cluster-wide listing is an
  input sequence of pods. The namespaced listing is modelled as the pods of that namespace in
  that sequence.
- Executing `kubectl` and its stderr diagnostics are process I/O. An attempt's success is left
  open (`Cluster.Patch` chooses it nondeterministically), except that a pod that is not there
  always fails.
- All `print` output and the start-up banner are logging only.
- `time.sleep`, the `POLL_INTERVAL` setting and the endless `while True` loop are left out. One
  cycle is modelled.
- An exception raised while listing pods ends the process. The model has no listing failure.
- `Cluster.Patch`: an exception from `subprocess.run` other than `CalledProcessError` and
  `FileNotFoundError` (for example a `PermissionError` or other `OSError` when `kubectl` cannot be
  executed, or a `UnicodeDecodeError` from decoding its output as text) is not caught and ends the
  process, so the remaining targets get no attempt. The model's attempt always returns, so its
  fault-containment guarantee covers only the two caught failure kinds.
- The API server's own removal of a pod once it is marked for deletion and has no finalizers
  left (during the patch request or at the end of its grace period) is not modelled. The pod map
  holds the state the patch asks for, so a cleared pod stays in it; `ApplyPatches` keeping the set
  of pods describes the model's state, not the server's later garbage collection.
- Concurrent changes by other clients between listing and patching are not modelled. A
  patch merges against the state the cluster holds at that moment.
- A pod's namespace and name are plain strings, since the API server always sets them. Only
  the metadata as a whole may be missing.
- Other metadata fields besides labels are left out. `spec` and `status` are arbitrary JSON
  values that the patch never touches.
- `ClearFinalizersIsMergePatch`: stated only for pods that have metadata. RFC 7386 would turn a
  missing `metadata` member into an empty object, but every pod the API server stores has
  metadata.
