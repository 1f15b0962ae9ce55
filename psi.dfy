/** The part of the IntelliJ program-structure interface (PSI) that the builder
    plugin touches: fields, class members, and a class declaration whose member
    list is appended to in place. */
module Psi {

  datatype Option<T> = None | Some(value: T)

  /** A field declaration: its name and the presentable text of its type. */
  datatype Field = Field(name: string, typeText: string)

  datatype Modifier = Public | Private | Static | Final

  /** The access modifiers among those modelled (`protected` and package
      access never occur in the generated code). */
  predicate IsAccess(m: Modifier)
  {
    m.Public? || m.Private?
  }

  /** A modifier list declares at most one access level. */
  predicate OneAccess(mods: set<Modifier>)
  {
    !(Public in mods && Private in mods)
  }

  /** `setModifierProperty` on a modifier list: the modifier is present
      exactly when `value` is set; setting an access modifier removes the
      other access modifier; every other modifier is kept. */
  function WithModifier(mods: set<Modifier>, m: Modifier, value: bool): (r: set<Modifier>)
    ensures m in r <==> value
    ensures forall x :: x != m ==>
              (x in r <==> x in mods && !(value && IsAccess(m) && IsAccess(x)))
    ensures OneAccess(mods) ==> OneAccess(r)
  {
    if !value then mods - {m}
    else if IsAccess(m) then mods - {Public, Private} + {m}
    else mods + {m}
  }

  /** A member of a class declaration. Methods (and constructors built from
      text) are represented by the source text they were parsed from; a nested
      class is a snapshot of its own members, since adding an element to a
      class inserts a copy of it. */
  datatype Member =
    | FieldMember(field: Field, modifiers: set<Modifier>)
    | ConstructorMember(modifiers: set<Modifier>)
    | MethodMember(text: string)
    | ClassMember(name: string, modifiers: set<Modifier>, members: seq<Member>)

  /** The fields declared directly in a member list, in declaration order. */
  function DeclaredFields(ms: seq<Member>): seq<Field>
  {
    if ms == [] then []
    else (if ms[0].FieldMember? then [ms[0].field] else []) + DeclaredFields(ms[1..])
  }

  lemma {:induction false} DeclaredFieldsAppend(a: seq<Member>, b: seq<Member>)
    ensures DeclaredFields(a + b) == DeclaredFields(a) + DeclaredFields(b)
  {
    if a == [] {
      assert a + b == b;
    } else {
      assert (a + b)[0] == a[0];
      assert (a + b)[1..] == a[1..] + b;
      var head := if a[0].FieldMember? then [a[0].field] else [];
      assert DeclaredFields(a + b) == head + DeclaredFields(a[1..] + b);
      DeclaredFieldsAppend(a[1..], b);
      assert DeclaredFields(a) == head + DeclaredFields(a[1..]);
    }
  }

  /** The first nested class of the given name in a member list. */
  function FindInnerClass(ms: seq<Member>, name: string): (r: Option<Member>)
    ensures r.Some? ==> r.value in ms && r.value.ClassMember? && r.value.name == name
    ensures r.Some? ==> exists k :: (0 <= k < |ms| && ms[k] == r.value &&
              forall j :: 0 <= j < k ==> !(ms[j].ClassMember? && ms[j].name == name))
    ensures r.None? <==> forall m :: m in ms && m.ClassMember? ==> m.name != name
  {
    if ms == [] then None
    else if ms[0].ClassMember? && ms[0].name == name then Some(ms[0])
    else
      assert forall m :: m in ms ==> m == ms[0] || m in ms[1..];
      var r := FindInnerClass(ms[1..], name);
      assert r.Some? ==> exists k :: (0 < k < |ms| && ms[k] == r.value &&
               forall j :: 0 <= j < k ==> !(ms[j].ClassMember? && ms[j].name == name)) by {
        if r.Some? {
          var k' :| 0 <= k' < |ms[1..]| && ms[1..][k'] == r.value &&
                    forall j :: 0 <= j < k' ==> !(ms[1..][j].ClassMember? && ms[1..][j].name == name);
          assert ms[k' + 1] == r.value;
          forall j | 0 <= j < k' + 1
            ensures !(ms[j].ClassMember? && ms[j].name == name)
          {
            if j > 0 { assert ms[j] == ms[1..][j - 1]; }
          }
        }
      }
      r
  }

  lemma {:induction false} FindInnerClassAppend(a: seq<Member>, b: seq<Member>, name: string)
    ensures FindInnerClass(a + b, name) ==
            if FindInnerClass(a, name).Some? then FindInnerClass(a, name) else FindInnerClass(b, name)
  {
    if a == [] {
      assert a + b == b;
    } else {
      assert (a + b)[0] == a[0];
      assert (a + b)[1..] == a[1..] + b;
      FindInnerClassAppend(a[1..], b, name);
    }
  }

  /** A class declaration owned by the source tree. Only its name, modifier
      list and member list are modelled; `Add` appends a member at the end.
      The constructor is `createClass(name)`, which declares `public class
      name { }`. */
  class PsiClass {
    const name: string
    var modifiers: set<Modifier>
    var members: seq<Member>

    constructor (name: string)
      ensures this.name == name && modifiers == {Public} && members == []
    {
      this.name := name;
      modifiers := {Public};
      members := [];
    }

    method SetModifierProperty(m: Modifier, value: bool)
      modifies this
      ensures modifiers == WithModifier(old(modifiers), m, value)
      ensures members == old(members)
    {
      modifiers := WithModifier(modifiers, m, value);
    }

    method Add(m: Member)
      modifies this
      ensures members == old(members) + [m]
      ensures modifiers == old(modifiers)
    {
      members := members + [m];
    }

    /** The member that adding this class to another one inserts. */
    function AsMember(): Member
      reads this
    {
      ClassMember(name, modifiers, members)
    }
  }
}
