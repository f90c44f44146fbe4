/** The finalizer-cleanup controller of scenario 04-pod-terminating: it finds pods
    that are stuck terminating because they still carry a configured finalizer,
    and clears their finalizer list with a JSON merge patch.

    The model covers the configuration values the controller derives from its
    environment, the predicate `should_clean`, the selector `list_stuck_pods`,
    the effect of the merge patch sent by `remove_finalizer_kubectl`, and one pass
    of the reconciliation loop in `run`. */
module FinalizerCleanup {
  import opened MergePatch

  datatype Option<T> = None | Some(value: T)

  // ---------------------------------------------------------------------------
  // Pods as the Kubernetes API returns them
  // ---------------------------------------------------------------------------

  /** The part of a pod's object metadata the controller reads or the patch
      touches. The deletion timestamp is only ever tested for presence. */
  datatype Metadata = Metadata(
    namespace: string,
    name: string,
    labels: map<string, string>,
    finalizers: Option<seq<string>>,
    deletionTimestamp: Option<string>)

  /** A pod: its metadata, which the client model allows to be missing, and the
      rest of the object, which the controller never looks at. */
  datatype Pod = Pod(metadata: Option<Metadata>, spec: Json, status: Json)

  /** The identity of a pod, the `(namespace, name)` pair the selector returns. */
  datatype Target = Target(namespace: string, name: string)

  /** The finalizers recorded on a pod; missing metadata or a missing list reads as none. */
  function FinalizerList(p: Pod): seq<string>
  {
    if p.metadata.Some? && p.metadata.value.finalizers.Some? then p.metadata.value.finalizers.value else []
  }

  /** The API layer has marked the pod for deletion. */
  predicate DeletionMarked(p: Pod)
  {
    p.metadata.Some? && p.metadata.value.deletionTimestamp.Some?
  }

  function TargetOf(p: Pod): Target
    requires p.metadata.Some?
  {
    Target(p.metadata.value.namespace, p.metadata.value.name)
  }

  // ---------------------------------------------------------------------------
  // Configuration
  // ---------------------------------------------------------------------------

  /** The settings read once at start-up. The poll interval is not modelled. */
  datatype Config = Config(finalizer: string, namespace: Option<string>)

  const DefaultFinalizer: string := "example.com/block-deletion"

  /** The characters Python's `str.isspace` accepts, and so `str.strip()` removes,
      as inclusive ranges. */
  const Whitespace: seq<(char, char)> := [
    ('\t', '\r'), ('\U{1C}', ' '), ('\U{85}', '\U{85}'), ('\U{A0}', '\U{A0}'),
    ('\U{1680}', '\U{1680}'), ('\U{2000}', '\U{200A}'), ('\U{2028}', '\U{2029}'),
    ('\U{202F}', '\U{202F}'), ('\U{205F}', '\U{205F}'), ('\U{3000}', '\U{3000}')]

  predicate InRanges(c: char, ranges: seq<(char, char)>)
  {
    ranges != [] && ((ranges[0].0 <= c <= ranges[0].1) || InRanges(c, ranges[1..]))
  }

  predicate IsSpace(c: char)
  {
    InRanges(c, Whitespace)
  }

  /** Every character of `s` from index `lo` up to, not including, `hi` is whitespace. */
  predicate SpaceBetween(s: string, lo: int, hi: int)
    requires 0 <= lo && hi <= |s|
  {
    forall i :: lo <= i < hi ==> IsSpace(s[i])
  }

  predicate AllSpace(s: string)
  {
    SpaceBetween(s, 0, |s|)
  }

  /** The index of the first character at or after `i` that is not whitespace,
      or `|s|` when there is none. */
  function SkipLeading(s: string, i: nat): (k: nat)
    requires i <= |s|
    ensures i <= k <= |s| && SpaceBetween(s, i, k)
    ensures k < |s| ==> !IsSpace(s[k])
    decreases |s| - i
  {
    if i < |s| && IsSpace(s[i]) then SkipLeading(s, i + 1) else i
  }

  /** The index just past the last character before `j`, and not before `lo`,
      that is not whitespace, or `lo` when there is none. */
  function SkipTrailing(s: string, lo: nat, j: nat): (k: nat)
    requires lo <= j <= |s|
    ensures lo <= k <= j && SpaceBetween(s, k, j)
    ensures k > lo ==> !IsSpace(s[k - 1])
    decreases j
  {
    if j > lo && IsSpace(s[j - 1]) then SkipTrailing(s, lo, j - 1) else j
  }

  /** Python's `str.strip()` with no argument: what is left once the
      whitespace at both ends is cut off. */
  function Strip(s: string): (r: string)
    ensures r == [] <==> AllSpace(s)
    ensures r != [] ==> !IsSpace(r[0]) && !IsSpace(r[|r| - 1])
    // a contiguous piece of `s` with only whitespace before and after it
    ensures exists lo :: 0 <= lo <= |s| - |r| && r == s[lo..lo + |r|] &&
                         SpaceBetween(s, 0, lo) && SpaceBetween(s, lo + |r|, |s|)
  {
    var lo := SkipLeading(s, 0);
    var hi := SkipTrailing(s, lo, |s|);
    assert hi == lo ==> AllSpace(s) by {
      // nothing is left after the leading whitespace
      if hi == lo { assert lo == |s|; }
    }
    assert hi > lo ==> s[lo..hi][0] == s[lo] && s[lo..hi][hi - lo - 1] == s[hi - 1];
    assert hi > lo ==> !AllSpace(s) by {
      if hi > lo { assert !IsSpace(s[lo]); }
    }
    s[lo..hi]
  }

  /** `NAMESPACE = os.environ.get("NAMESPACE", "").strip() or None`: an unset,
      empty or all-whitespace setting means every namespace. */
  function NormalizeNamespace(env: Option<string>): (r: Option<string>)
    ensures r.None? <==> env.None? || AllSpace(env.value)
    ensures r.Some? ==> r.value != [] && r.value == Strip(env.value)
    ensures r.Some? ==> !IsSpace(r.value[0]) && !IsSpace(r.value[|r.value| - 1])
  {
    var s := Strip(if env.Some? then env.value else "");
    if s == "" then None else Some(s)
  }

  /** The configuration taken from `FINALIZER_NAME` and `NAMESPACE`, each `None` when unset. */
  function LoadSettings(finalizerEnv: Option<string>, namespaceEnv: Option<string>): (c: Config)
    ensures c.finalizer == (if finalizerEnv.Some? then finalizerEnv.value else DefaultFinalizer)
    ensures c.namespace.None? <==> namespaceEnv.None? || AllSpace(namespaceEnv.value)
    ensures c.namespace.Some? ==> c.namespace.value == Strip(namespaceEnv.value) != []
  {
    Config(if finalizerEnv.Some? then finalizerEnv.value else DefaultFinalizer, NormalizeNamespace(namespaceEnv))
  }

  /** Python truthiness of the namespace setting: `None` and `""` both mean all namespaces. */
  predicate Scoped(scope: Option<string>)
  {
    scope.Some? && scope.value != ""
  }

  // ---------------------------------------------------------------------------
  // The predicate: should_clean
  // ---------------------------------------------------------------------------

  /** A pod is stuck terminating with our finalizer. Missing or incomplete
      metadata never qualifies. */
  function ShouldClean(finalizer: string, p: Pod): (r: bool)
    // fails closed: no metadata, or no finalizers at all
    ensures p.metadata.None? ==> !r
    ensures p.metadata.Some? && (p.metadata.value.finalizers.None? || p.metadata.value.finalizers == Some([])) ==> !r
    // never without a deletion mark, whatever the finalizers are
    ensures !DeletionMarked(p) ==> !r
    // exactly: marked for deletion and the configured finalizer is listed verbatim
    ensures r <==> DeletionMarked(p) && finalizer in FinalizerList(p)
  {
    if p.metadata.None? || p.metadata.value.finalizers.None? || |p.metadata.value.finalizers.value| == 0 then
      false
    else if p.metadata.value.deletionTimestamp.None? then
      false
    else
      finalizer in p.metadata.value.finalizers.value
  }

  // ---------------------------------------------------------------------------
  // Enumeration and the selector: list_stuck_pods
  // ---------------------------------------------------------------------------

  predicate InNamespace(p: Pod, ns: string)
  {
    p.metadata.Some? && p.metadata.value.namespace == ns
  }

  /** What `list_namespaced_pod(ns)` returns, given what a cluster-wide list returns
      at the same moment: the pods of that namespace, in the same order. */
  function ListNamespaced(all: seq<Pod>, ns: string): (r: seq<Pod>)
    ensures |r| <= |all|
    ensures forall p :: p in r ==> p in all && InNamespace(p, ns)
    ensures forall p :: p in all && InNamespace(p, ns) ==> p in r
  {
    if all == [] then []
    else (if InNamespace(all[0], ns) then [all[0]] else []) + ListNamespaced(all[1..], ns)
  }

  /** The pods the controller sees: one namespace when one is configured, otherwise all of them. */
  function Enumerate(scope: Option<string>, all: seq<Pod>): (r: seq<Pod>)
    ensures forall p :: p in r ==> p in all
    ensures Scoped(scope) ==> forall p :: p in r ==> InNamespace(p, scope.value)
    ensures Scoped(scope) ==> forall p :: p in all && InNamespace(p, scope.value) ==> p in r
    ensures !Scoped(scope) ==> r == all
  {
    if Scoped(scope) then ListNamespaced(all, scope.value) else all
  }

  /** The targets `list_stuck_pods` returns for the listed pods: one per pod that
      qualifies, in list order. */
  function Stuck(finalizer: string, pods: seq<Pod>): (r: seq<Target>)
    ensures |r| <= |pods|
  {
    if pods == [] then []
    else
      (if ShouldClean(finalizer, pods[0]) then [TargetOf(pods[0])] else []) + Stuck(finalizer, pods[1..])
  }

  /** The selection is sound and complete: a target is selected exactly when
      some listed pod with that identity qualifies. */
  lemma {:induction false} StuckExactly(finalizer: string, pods: seq<Pod>)
    // sound: every target names a listed pod that qualifies
    ensures forall t :: t in Stuck(finalizer, pods) ==>
      exists p :: p in pods && ShouldClean(finalizer, p) && TargetOf(p) == t
    // complete: every listed pod that qualifies is selected
    ensures forall p :: p in pods && ShouldClean(finalizer, p) ==> TargetOf(p) in Stuck(finalizer, pods)
  {
    if pods != [] {
      StuckExactly(finalizer, pods[1..]);
      assert forall p :: p in pods ==> p == pods[0] || p in pods[1..];
    }
  }

  /** Selection keeps list order: the targets of a concatenated listing are the
      targets of the first part followed by those of the second. */
  lemma {:induction false} StuckAppend(finalizer: string, a: seq<Pod>, b: seq<Pod>)
    ensures Stuck(finalizer, a + b) == Stuck(finalizer, a) + Stuck(finalizer, b)
  {
    if a == [] {
      assert a + b == b;
    } else {
      var head := if ShouldClean(finalizer, a[0]) then [TargetOf(a[0])] else [];
      assert (a + b)[0] == a[0];
      assert (a + b)[1..] == a[1..] + b;
      assert Stuck(finalizer, a + b) == head + Stuck(finalizer, a[1..] + b);
      StuckAppend(finalizer, a[1..], b);
      assert Stuck(finalizer, a) == head + Stuck(finalizer, a[1..]);
    }
  }

  /** One more listed pod adds its target when it qualifies and nothing otherwise. */
  lemma StuckExtend(finalizer: string, pods: seq<Pod>, i: nat)
    requires i < |pods|
    ensures Stuck(finalizer, pods[..i + 1]) ==
      Stuck(finalizer, pods[..i]) + if ShouldClean(finalizer, pods[i]) then [TargetOf(pods[i])] else []
  {
    assert pods[..i + 1] == pods[..i] + [pods[i]];
    StuckAppend(finalizer, pods[..i], [pods[i]]);
    assert [pods[i]][1..] == [];
  }

  /** `list_stuck_pods`: enumerate the pods in scope and keep the identities of
      those that should be cleaned. `all` is what a cluster-wide list returns. */
  method ListStuckPods(cfg: Config, all: seq<Pod>) returns (stuck: seq<Target>)
    ensures stuck == Stuck(cfg.finalizer, Enumerate(cfg.namespace, all))
  {
    stuck := [];
    var pods;
    if Scoped(cfg.namespace) {
      pods := ListNamespaced(all, cfg.namespace.value);
    } else {
      pods := all;
    }
    for i := 0 to |pods|
      invariant stuck == Stuck(cfg.finalizer, pods[..i])
    {
      StuckExtend(cfg.finalizer, pods, i);
      if ShouldClean(cfg.finalizer, pods[i]) {
        stuck := stuck + [TargetOf(pods[i])];
      }
    }
    assert pods[..|pods|] == pods;
  }

  // ---------------------------------------------------------------------------
  // The remediation: remove_finalizer_kubectl
  // ---------------------------------------------------------------------------

  function StrArray(items: seq<string>): Json
  {
    Arr(seq(|items|, i requires 0 <= i < |items| => Str(items[i])))
  }

  /** The metadata members other than the finalizer list. */
  function MetadataMembersBesidesFinalizers(m: Metadata): (r: map<string, Json>)
    ensures "finalizers" !in r
  {
    var fixed := map["namespace" := Str(m.namespace), "name" := Str(m.name),
                     "labels" := Obj(map k | k in m.labels :: Str(m.labels[k]))];
    if m.deletionTimestamp.Some? then fixed["deletionTimestamp" := Str(m.deletionTimestamp.value)] else fixed
  }

  /** The metadata as a JSON object; an absent list or timestamp is an absent member. */
  function MetadataJson(m: Metadata): Json
  {
    var rest := MetadataMembersBesidesFinalizers(m);
    Obj(if m.finalizers.Some? then rest["finalizers" := StrArray(m.finalizers.value)] else rest)
  }

  /** The pod as the JSON object the API server holds. */
  function PodJson(p: Pod): Json
  {
    var rest := map["spec" := p.spec, "status" := p.status];
    Obj(if p.metadata.Some? then rest["metadata" := MetadataJson(p.metadata.value)] else rest)
  }

  /** The document passed to `kubectl patch --type=merge`: {"metadata":{"finalizers":null}}. */
  const RemoveFinalizersPatch: Json := Obj(map["metadata" := Obj(map["finalizers" := Null])])

  /** What the merge patch does to a pod the server holds: its whole finalizer
      list is dropped, unrelated finalizers included. */
  function ClearFinalizers(p: Pod): (r: Pod)
    requires p.metadata.Some?
    ensures r.metadata.Some? && TargetOf(r) == TargetOf(p)
    ensures FinalizerList(r) == []
    ensures forall finalizer :: !ShouldClean(finalizer, r)
    ensures DeletionMarked(r) == DeletionMarked(p)
  {
    p.(metadata := Some(p.metadata.value.(finalizers := None)))
  }

  /** `ClearFinalizers` is exactly RFC 7386 merge patching with the controller's
      patch document: the finalizers member goes, every other member of the pod stays. */
  lemma ClearFinalizersIsMergePatch(p: Pod)
    requires p.metadata.Some?
    ensures Apply(PodJson(p), RemoveFinalizersPatch) == PodJson(ClearFinalizers(p))
  {
    var m := p.metadata.value;
    var metaPatch := Obj(map["finalizers" := Null]);
    var rest := MetadataMembersBesidesFinalizers(m);
    ApplyNullMember(MetadataJson(m).members, "finalizers");
    if m.finalizers.Some? {
      assert rest["finalizers" := StrArray(m.finalizers.value)] - {"finalizers"} == rest;
    } else {
      assert rest - {"finalizers"} == rest;
    }
    var cleared := MetadataJson(m.(finalizers := None));
    assert Apply(MetadataJson(m), metaPatch) == cleared;
    var podRest := map["spec" := p.spec, "status" := p.status];
    ApplySingleMember(PodJson(p).members, "metadata", metaPatch);
    assert podRest["metadata" := MetadataJson(m)]["metadata" := cleared] == podRest["metadata" := cleared];
  }

  /** Patching a pod twice leaves it as patching it once. */
  lemma ClearFinalizersIdempotent(p: Pod)
    requires p.metadata.Some?
    ensures ClearFinalizers(ClearFinalizers(p)) == ClearFinalizers(p)
    ensures Apply(Apply(PodJson(p), RemoveFinalizersPatch), RemoveFinalizersPatch)
         == PodJson(ClearFinalizers(p))
  {
    ClearFinalizersIsMergePatch(p);
    ApplyIdempotent(PodJson(p), RemoveFinalizersPatch);
  }

  // ---------------------------------------------------------------------------
  // The cluster and one reconciliation cycle
  // ---------------------------------------------------------------------------

  /** Every pod is stored under its own namespace and name. */
  predicate WellKeyed(pods: map<Target, Pod>)
  {
    forall t | t in pods :: pods[t].metadata.Some? && TargetOf(pods[t]) == t
  }

  /** The server state after one patch attempt on `t` that reported `ok`. */
  function PatchEffect(pods: map<Target, Pod>, t: Target, ok: bool): (r: map<Target, Pod>)
    requires WellKeyed(pods)
    ensures WellKeyed(r) && r.Keys == pods.Keys
  {
    if ok && t in pods then pods[t := ClearFinalizers(pods[t])] else pods
  }

  /** The server state after the attempts on `targets`, in order, reported `oks`. */
  function ApplyPatches(pods: map<Target, Pod>, targets: seq<Target>, oks: seq<bool>): (r: map<Target, Pod>)
    requires WellKeyed(pods) && |oks| == |targets|
    ensures WellKeyed(r) && r.Keys == pods.Keys
    decreases |targets|
  {
    if targets == [] then pods
    else
      var n := |targets| - 1;
      PatchEffect(ApplyPatches(pods, targets[..n], oks[..n]), targets[n], oks[n])
  }

  /** One more attempt extends the cycle's effect by that attempt's effect, and
      the cleared targets by its target when it succeeded. */
  lemma ApplyPatchesStep(pods: map<Target, Pod>, targets: seq<Target>, oks: seq<bool>, ok: bool)
    requires WellKeyed(pods) && |oks| < |targets|
    ensures ApplyPatches(pods, targets[..|oks| + 1], oks + [ok]) ==
      PatchEffect(ApplyPatches(pods, targets[..|oks|], oks), targets[|oks|], ok)
    ensures Cleared(targets[..|oks| + 1], oks + [ok]) ==
      Cleared(targets[..|oks|], oks) + if ok then {targets[|oks|]} else {}
  {
    var i := |oks|;
    assert targets[..i + 1][..i] == targets[..i];
    assert (oks + [ok])[..i] == oks;
    ClearedLast(targets[..i + 1], oks + [ok]);
  }

  /** The targets whose patch attempt succeeded. */
  function Cleared(targets: seq<Target>, oks: seq<bool>): set<Target>
    requires |oks| == |targets|
  {
    set i | 0 <= i < |targets| && oks[i] :: targets[i]
  }

  /** The last attempt adds its target to the cleared ones exactly when it succeeded. */
  lemma ClearedLast(targets: seq<Target>, oks: seq<bool>)
    requires |oks| == |targets| > 0
    ensures Cleared(targets, oks) ==
      Cleared(targets[..|targets| - 1], oks[..|oks| - 1]) + if oks[|oks| - 1] then {targets[|targets| - 1]} else {}
  {
    var n := |targets| - 1;
    forall u | u in Cleared(targets, oks) ensures u in Cleared(targets[..n], oks[..n]) || (oks[n] && u == targets[n]) {
      var i :| 0 <= i < |targets| && oks[i] && targets[i] == u;
      if i < n { assert targets[..n][i] == u && oks[..n][i]; }
    }
    forall u | u in Cleared(targets[..n], oks[..n]) ensures u in Cleared(targets, oks) {
      var i :| 0 <= i < n && oks[..n][i] && targets[..n][i] == u;
      assert targets[i] == u && oks[i];
    }
  }

  /** A cycle's effect in closed form: a pod whose patch succeeded at least once
      has lost its finalizers and nothing else; every other pod is untouched. */
  lemma {:induction false} ApplyPatchesClosedForm(pods: map<Target, Pod>, targets: seq<Target>, oks: seq<bool>)
    requires WellKeyed(pods) && |oks| == |targets|
    ensures forall t :: t in pods ==>
      ApplyPatches(pods, targets, oks)[t] == if t in Cleared(targets, oks) then ClearFinalizers(pods[t]) else pods[t]
    decreases |targets|
  {
    if targets != [] {
      var n := |targets| - 1;
      ApplyPatchesClosedForm(pods, targets[..n], oks[..n]);
      var before := ApplyPatches(pods, targets[..n], oks[..n]);
      ClearedLast(targets, oks);
      forall t | t in pods
        ensures ApplyPatches(pods, targets, oks)[t] ==
          if t in Cleared(targets, oks) then ClearFinalizers(pods[t]) else pods[t]
      {
        if oks[n] && t == targets[n] && t in Cleared(targets[..n], oks[..n]) {
          ClearFinalizersIdempotent(pods[t]);
        }
      }
    }
  }

  /** A pod in `pods` as it appears in a listing taken from that state. */
  predicate Listed(pods: map<Target, Pod>, p: Pod)
  {
    p.metadata.Some? && TargetOf(p) in pods && pods[TargetOf(p)] == p
  }

  /** Level-based reconciliation: a pod that does not qualify in the current
      state is not selected by a cycle that lists that state. */
  lemma NotSelectedUnlessQualifying(finalizer: string, scope: Option<string>, pods: map<Target, Pod>, listing: seq<Pod>, t: Target)
    requires forall j :: 0 <= j < |listing| ==> Listed(pods, listing[j])
    requires t in pods && !ShouldClean(finalizer, pods[t])
    ensures t !in Stuck(finalizer, Enumerate(scope, listing))
  {
    StuckExactly(finalizer, Enumerate(scope, listing));
  }

  /** Idempotence across cycles: once a target's patch has succeeded, the next
      cycle, listing the new state, does not select it again. */
  lemma PatchedNotReselected(finalizer: string, scope: Option<string>, pods: map<Target, Pod>,
                             targets: seq<Target>, oks: seq<bool>, next: seq<Pod>)
    requires WellKeyed(pods) && |oks| == |targets|
    requires forall j :: 0 <= j < |next| ==> Listed(ApplyPatches(pods, targets, oks), next[j])
    ensures forall i :: 0 <= i < |targets| && oks[i] && targets[i] in pods ==>
      targets[i] !in Stuck(finalizer, Enumerate(scope, next))
  {
    var after := ApplyPatches(pods, targets, oks);
    ApplyPatchesClosedForm(pods, targets, oks);
    forall i | 0 <= i < |targets| && oks[i] && targets[i] in pods
      ensures targets[i] !in Stuck(finalizer, Enumerate(scope, next))
    {
      assert targets[i] in Cleared(targets, oks);
      NotSelectedUnlessQualifying(finalizer, scope, after, next, targets[i]);
    }
  }

  /** The cluster's pods as the API server holds them, keyed by namespace and name. */
  class Cluster {
    var pods: map<Target, Pod>
    /** Every patch attempt made so far, in the order it was made. */
    ghost var attempts: seq<Target>

    ghost predicate Valid()
      reads this
    {
      WellKeyed(pods)
    }

    constructor (initial: map<Target, Pod>)
      requires WellKeyed(initial)
      ensures Valid() && pods == initial && attempts == []
    {
      pods := initial;
      attempts := [];
    }

    /** `remove_finalizer_kubectl(namespace, name)`: one attempt at the merge patch.
        A pod that is not there makes kubectl fail; any other attempt may fail too
        (kubectl exits non-zero, or is not installed), and a failed attempt changes
        nothing. The attempt is logged in `attempts` whatever it reports. */
    method Patch(t: Target) returns (ok: bool)
      requires Valid()
      modifies this
      ensures Valid()
      ensures ok ==> t in old(pods)
      ensures pods == PatchEffect(old(pods), t, ok)
      ensures attempts == old(attempts) + [t]
    {
      attempts := attempts + [t];
      if t !in pods {
        return false;
      }
      ok :| true;
      if ok {
        pods := pods[t := ClearFinalizers(pods[t])];
      }
    }
  }

  /** The `for` loop of `run`: one patch attempt per target, in order; a failed
      attempt does not stop the rest. `oks[i]` is what the attempt on
      `targets[i]` reported. */
  method PatchAll(cluster: Cluster, targets: seq<Target>) returns (oks: seq<bool>)
    requires cluster.Valid()
    modifies cluster
    ensures cluster.Valid()
    ensures |oks| == |targets|
    ensures Cleared(targets, oks) <= old(cluster.pods).Keys
    ensures cluster.pods == ApplyPatches(old(cluster.pods), targets, oks)
    ensures cluster.attempts == old(cluster.attempts) + targets
  {
    oks := [];
    ghost var initial := cluster.pods;
    ghost var before := cluster.attempts;
    for i := 0 to |targets|
      invariant cluster.Valid()
      invariant cluster.attempts == before + targets[..i]
      invariant |oks| == i
      invariant Cleared(targets[..i], oks) <= initial.Keys
      invariant cluster.pods == ApplyPatches(initial, targets[..i], oks)
    {
      var ok := cluster.Patch(targets[i]);
      assert targets[..i + 1] == targets[..i] + [targets[i]];
      ApplyPatchesStep(initial, targets, oks, ok);
      oks := oks + [ok];
    }
    assert targets[..|targets|] == targets;
  }

  /** One pass of the `while True` body in `run`: select the stuck pods from
      the listing `all`, then attempt the patch on every one of them. */
  method RunCycle(cfg: Config, cluster: Cluster, all: seq<Pod>) returns (targets: seq<Target>, oks: seq<bool>)
    requires cluster.Valid()
    modifies cluster
    ensures cluster.Valid()
    ensures targets == Stuck(cfg.finalizer, Enumerate(cfg.namespace, all))
    ensures |oks| == |targets|
    ensures Cleared(targets, oks) <= old(cluster.pods).Keys
    ensures cluster.pods == ApplyPatches(old(cluster.pods), targets, oks)
    ensures cluster.attempts == old(cluster.attempts) + targets
  {
    targets := ListStuckPods(cfg, all);
    oks := PatchAll(cluster, targets);
  }
}
