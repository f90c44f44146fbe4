/** JSON documents and the JSON Merge Patch algorithm of RFC 7386, section 2.

    The controller's remediation hands the document {"metadata":{"finalizers":null}}
    to `kubectl patch --type=merge`; this module gives that request its meaning. */
module MergePatch {

  /** A JSON value. Object members are a map: member order carries no meaning
      in a merge patch, and a name occurs at most once. */
  datatype Json =
    | Null
    | Bool(b: bool)
    | Num(n: int)
    | Str(s: string)
    | Arr(items: seq<Json>)
    | Obj(members: map<string, Json>)

  /** The members of `target` when it is an object; any other target is
      replaced by the empty object before an object patch is applied. */
  function MembersOrEmpty(target: Json): map<string, Json>
  {
    if target.Obj? then target.members else map[]
  }

  /** MergePatch(Target, Patch) of RFC 7386, section 2. A member absent from
      the target is passed down as `Null`, which, like the RFC's undefined
      value, is not an object. */
  function Apply(target: Json, patch: Json): (r: Json)
    decreases patch
    ensures !patch.Obj? ==> r == patch
    ensures patch.Obj? ==> r.Obj?
  {
    match patch
    case Obj(pm) =>
      var tm := MembersOrEmpty(target);
      Obj(map k | k in tm.Keys + pm.Keys && !(k in pm && pm[k].Null?) ::
            if k in pm then Apply(if k in tm then tm[k] else Null, pm[k]) else tm[k])
    case _ => patch
  }

  /** An object patch decides the result member by member: a member it sets to
      null is gone, a member it sets to anything else is that value merged into
      the target's member, and a member it does not mention is kept as it was. */
  lemma ApplyMembers(target: Json, patch: Json, k: string)
    requires patch.Obj?
    ensures k in patch.members && patch.members[k].Null? ==> k !in Apply(target, patch).members
    ensures k in patch.members && !patch.members[k].Null? ==>
      k in Apply(target, patch).members &&
      Apply(target, patch).members[k] ==
        Apply(if k in MembersOrEmpty(target) then MembersOrEmpty(target)[k] else Null, patch.members[k])
    ensures k in MembersOrEmpty(target) && k !in patch.members ==>
      k in Apply(target, patch).members && Apply(target, patch).members[k] == MembersOrEmpty(target)[k]
    ensures k !in MembersOrEmpty(target) && k !in patch.members ==> k !in Apply(target, patch).members
  {
  }

  /** Applying the same merge patch a second time changes nothing. */
  lemma {:induction false} ApplyIdempotent(target: Json, patch: Json)
    decreases patch
    ensures Apply(Apply(target, patch), patch) == Apply(target, patch)
  {
    match patch
    case Obj(pm) =>
      var tm := MembersOrEmpty(target);
      var once := Apply(target, patch);
      var m1 := once.members;
      var twice := Apply(once, patch);
      var m2 := twice.members;
      forall k
        ensures k in m2 <==> k in m1
        ensures k in m1 ==> m2[k] == m1[k]
      {
        ApplyMembers(target, patch, k);
        ApplyMembers(once, patch, k);
        if k in pm && !pm[k].Null? {
          ApplyIdempotent(if k in tm then tm[k] else Null, pm[k]);
        }
      }
      assert m2 == m1;
    case _ =>
  }

  /** A patch with a single null member removes that member and nothing else. */
  lemma ApplyNullMember(tm: map<string, Json>, name: string)
    ensures Apply(Obj(tm), Obj(map[name := Null])) == Obj(tm - {name})
  {
    var r := Apply(Obj(tm), Obj(map[name := Null])).members;
    var want := tm - {name};
    forall k
      ensures k in r <==> k in want
      ensures k in r ==> r[k] == want[k]
    {
      ApplyMembers(Obj(tm), Obj(map[name := Null]), k);
    }
    assert r == want;
  }

  /** A patch with a single non-null member merges that member into the target
      and keeps every other member. */
  lemma ApplySingleMember(tm: map<string, Json>, name: string, value: Json)
    requires !value.Null?
    ensures Apply(Obj(tm), Obj(map[name := value]))
         == Obj(tm[name := Apply(if name in tm then tm[name] else Null, value)])
  {
    var r := Apply(Obj(tm), Obj(map[name := value])).members;
    var want := tm[name := Apply(if name in tm then tm[name] else Null, value)];
    forall k
      ensures k in r <==> k in want
      ensures k in r ==> r[k] == want[k]
    {
      ApplyMembers(Obj(tm), Obj(map[name := value]), k);
    }
    assert r == want;
  }
}
