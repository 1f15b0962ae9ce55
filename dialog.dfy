/** BuilderDialog's choice of the fields to offer: every field of the owner
    when it has no nested `Builder`, otherwise the owner's own declared fields
    whose names the `Builder` does not already have. */
module Dialog {
  import opened Psi

  /** What the program-structure interface answers about an owner class:
      `getAllFields()` (inherited fields included), `getFields()` (declared
      fields only), and for `findInnerClassByName("Builder", true)` either
      nothing or the fields the found class has, its inherited ones included,
      which is where `findFieldByName(name, true)` searches. */
  datatype ClassView = ClassView(allFields: seq<Field>, fields: seq<Field>, innerBuilder: Option<seq<Field>>)

  predicate HasFieldNamed(fs: seq<Field>, name: string)
  {
    exists g :: g in fs && g.name == name
  }

  /** The first field of the given name, if any. */
  function FindFieldByName(fs: seq<Field>, name: string): (r: Option<Field>)
    ensures r.Some? ==> r.value in fs && r.value.name == name
    ensures r.Some? ==> exists k :: (0 <= k < |fs| && fs[k] == r.value &&
              forall j :: 0 <= j < k ==> fs[j].name != name)
    ensures r.None? <==> !HasFieldNamed(fs, name)
  {
    if fs == [] then None
    else if fs[0].name == name then Some(fs[0])
    else
      assert forall g :: g in fs ==> g == fs[0] || g in fs[1..];
      var r := FindFieldByName(fs[1..], name);
      assert r.Some? ==> exists k :: (0 < k < |fs| && fs[k] == r.value &&
               forall j :: 0 <= j < k ==> fs[j].name != name) by {
        if r.Some? {
          var k' :| 0 <= k' < |fs[1..]| && fs[1..][k'] == r.value &&
                    forall j :: 0 <= j < k' ==> fs[1..][j].name != name;
          assert fs[k' + 1] == r.value;
          forall j | 0 <= j < k' + 1
            ensures fs[j].name != name
          {
            if j > 0 { assert fs[j] == fs[1..][j - 1]; }
          }
        }
      }
      r
  }

  /** The declared fields whose names the builder lacks, in declaration order. */
  function Additional(declared: seq<Field>, builderFields: seq<Field>): seq<Field>
  {
    if declared == [] then []
    else
      var last := declared[|declared| - 1];
      Additional(declared[..|declared| - 1], builderFields)
        + (if HasFieldNamed(builderFields, last.name) then [] else [last])
  }

  /** The positions in `declared` of the fields `Additional` keeps. */
  function KeptIndices(declared: seq<Field>, builderFields: seq<Field>): seq<nat>
  {
    if declared == [] then []
    else
      var n := |declared| - 1;
      KeptIndices(declared[..n], builderFields)
        + (if HasFieldNamed(builderFields, declared[n].name) then [] else [n])
  }

  /** Soundness: every offered field is a declared field of the owner (so an
      inherited owner field is never offered) and shares its name with no
      field of the builder. */
  lemma {:induction false} AdditionalSound(declared: seq<Field>, builderFields: seq<Field>)
    ensures forall f :: f in Additional(declared, builderFields) ==>
              f in declared && !HasFieldNamed(builderFields, f.name)
  {
    if declared != [] {
      var n := |declared| - 1;
      AdditionalSound(declared[..n], builderFields);
      assert forall f :: f in declared[..n] ==> f in declared;
    }
  }

  /** Completeness: every declared field whose name the builder lacks is offered. */
  lemma {:induction false} AdditionalComplete(declared: seq<Field>, builderFields: seq<Field>)
    ensures forall f :: f in declared && !HasFieldNamed(builderFields, f.name) ==>
              f in Additional(declared, builderFields)
  {
    if declared != [] {
      var n := |declared| - 1;
      AdditionalComplete(declared[..n], builderFields);
      assert declared == declared[..n] + [declared[n]];
      assert forall f :: f in declared ==> f in declared[..n] || f == declared[n];
    }
  }

  /** The match is on names only: an owner field is withheld as soon as the
      builder has a field of that name, whatever that field's type. */
  lemma NameOnlyMatch(declared: seq<Field>, builderFields: seq<Field>, f: Field, g: Field)
    requires g in builderFields && g.name == f.name
    ensures f !in Additional(declared, builderFields)
  {
    AdditionalSound(declared, builderFields);
  }

  /** Order: the offered fields are the declared fields at strictly
      increasing positions, namely exactly the positions of the fields whose
      names the builder lacks; the result is a subsequence of the declared
      fields. */
  lemma {:induction false} AdditionalOrder(declared: seq<Field>, builderFields: seq<Field>)
    ensures |KeptIndices(declared, builderFields)| == |Additional(declared, builderFields)|
    ensures forall k :: 0 <= k < |KeptIndices(declared, builderFields)| ==>
              KeptIndices(declared, builderFields)[k] < |declared| &&
              Additional(declared, builderFields)[k] == declared[KeptIndices(declared, builderFields)[k]]
    ensures forall k, l :: 0 <= k < l < |KeptIndices(declared, builderFields)| ==>
              KeptIndices(declared, builderFields)[k] < KeptIndices(declared, builderFields)[l]
    ensures forall i :: 0 <= i < |declared| ==>
              (i in KeptIndices(declared, builderFields) <==> !HasFieldNamed(builderFields, declared[i].name))
  {
    if declared != [] {
      var n := |declared| - 1;
      var prefix := declared[..n];
      AdditionalOrder(prefix, builderFields);
      var ks, rs := KeptIndices(prefix, builderFields), Additional(prefix, builderFields);
      var K, R := KeptIndices(declared, builderFields), Additional(declared, builderFields);
      forall k | 0 <= k < |K|
        ensures K[k] < |declared| && R[k] == declared[K[k]]
      {
        if k < |ks| {
          assert K[k] == ks[k] && R[k] == rs[k];
          assert prefix[ks[k]] == declared[ks[k]];
        }
      }
      forall i | 0 <= i < |declared|
        ensures i in K <==> !HasFieldNamed(builderFields, declared[i].name)
      {
        if i < n {
          assert prefix[i] == declared[i];
          assert i in K <==> i in ks;
        }
      }
    }
  }

  /** additionalFields: goes through the declared fields in order and keeps
      those the builder has no field for, by name. */
  method AdditionalFields(declared: seq<Field>, builderFields: seq<Field>) returns (r: seq<Field>)
    ensures r == Additional(declared, builderFields)
  {
    r := [];
    for i := 0 to |declared|
      invariant r == Additional(declared[..i], builderFields)
    {
      var psiField := declared[i];
      var field := FindFieldByName(builderFields, psiField.name);
      assert declared[..i + 1][..i] == declared[..i];
      if field == None {
        r := r + [psiField];
      }
    }
    assert declared[..|declared|] == declared;
  }

  /** getFieldsToAdd: all fields when no `Builder` is found, otherwise the
      declared fields the found `Builder` does not yet have. */
  method GetFieldsToAdd(owner: ClassView) returns (r: seq<Field>)
    ensures owner.innerBuilder.None? ==> r == owner.allFields
    ensures owner.innerBuilder.Some? ==> r == Additional(owner.fields, owner.innerBuilder.value)
  {
    if owner.innerBuilder.Some? {
      r := AdditionalFields(owner.fields, owner.innerBuilder.value);
      return;
    }
    r := owner.allFields;
  }
}
