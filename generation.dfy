/** BuilderGenerator: appends to the owner class a nested `Builder` class, a
    private constructor taking a `Builder`, and a static factory method, in
    that order, every time it runs. It looks for nothing that is already
    there. */
module Generation {
  import opened Psi
  import opened GeneratedText

  // ---------------------------------------------------------------------
  // What one generation appends

  /** For each chosen field, in list order: a private mirror field and its setter. */
  function MirrorMembers(fs: seq<Field>): seq<Member>
  {
    if fs == [] then []
    else [FieldMember(fs[0], {Private}), MethodMember(SetterText(fs[0]))] + MirrorMembers(fs[1..])
  }

  /** The members of the generated `Builder`: the private no-argument
      constructor, the mirror fields with their setters, then `build()`. */
  function BuilderMembers(owner: string, fs: seq<Field>): seq<Member>
  {
    [ConstructorMember({Private})] + MirrorMembers(fs) + [MethodMember(BuildText(owner))]
  }

  function BuilderClass(owner: string, fs: seq<Field>): Member
  {
    ClassMember("Builder", {Public, Final, Static}, BuilderMembers(owner, fs))
  }

  /** The three members one generation appends to the owner, in order. */
  function GeneratedMembers(owner: string, fs: seq<Field>): seq<Member>
  {
    [BuilderClass(owner, fs), MethodMember(ConstructorText(owner, fs)), MethodMember(FactoryText(owner))]
  }

  // ---------------------------------------------------------------------
  // Recognising generated members in a member list

  predicate IsBuilderClass(m: Member)
  {
    m.ClassMember? && m.name == "Builder"
  }

  /** A method whose text is a constructor of `owner` taking a `Builder` and assigning fields from it. */
  predicate IsBuilderConstructorOf(m: Member, owner: string)
  {
    m.MethodMember? && ParseConstructor(m.text).Some? && ParseConstructor(m.text).value.0 == owner
  }

  predicate IsFactoryOf(m: Member, owner: string)
  {
    m.MethodMember? && ParseFactory(m.text) == Some(owner)
  }

  function Count(ms: seq<Member>, p: Member -> bool): nat
  {
    if ms == [] then 0 else (if p(ms[0]) then 1 else 0) + Count(ms[1..], p)
  }

  lemma {:induction false} CountAppend(a: seq<Member>, b: seq<Member>, p: Member -> bool)
    ensures Count(a + b, p) == Count(a, p) + Count(b, p)
  {
    if a == [] {
      assert a + b == b;
    } else {
      assert (a + b)[0] == a[0];
      assert (a + b)[1..] == a[1..] + b;
      CountAppend(a[1..], b, p);
    }
  }

  lemma CountOfThree(a: Member, b: Member, c: Member, p: Member -> bool)
    ensures Count([a, b, c], p) == (if p(a) then 1 else 0) + (if p(b) then 1 else 0) + (if p(c) then 1 else 0)
  {
    assert [a, b, c][1..] == [b, c];
    assert [b, c][1..] == [c];
    assert [c][1..] == [];
    assert Count([c], p) == (if p(c) then 1 else 0) + Count([], p);
    assert Count([b, c], p) == (if p(b) then 1 else 0) + Count([c], p);
  }

  // ---------------------------------------------------------------------
  // Shape of the generated builder

  lemma {:induction false} MirrorMembersAppend(fs: seq<Field>, f: Field)
    ensures MirrorMembers(fs + [f]) == MirrorMembers(fs) + [FieldMember(f, {Private}), MethodMember(SetterText(f))]
  {
    if fs == [] {
      assert fs + [f] == [f];
    } else {
      assert (fs + [f])[0] == fs[0];
      assert (fs + [f])[1..] == fs[1..] + [f];
      MirrorMembersAppend(fs[1..], f);
    }
  }

  lemma {:induction false} MirrorMembersAt(fs: seq<Field>)
    ensures |MirrorMembers(fs)| == 2 * |fs|
    ensures forall i :: 0 <= i < |fs| ==>
              MirrorMembers(fs)[2 * i] == FieldMember(fs[i], {Private}) &&
              MirrorMembers(fs)[2 * i + 1] == MethodMember(SetterText(fs[i]))
  {
    if fs != [] {
      MirrorMembersAt(fs[1..]);
      var head := [FieldMember(fs[0], {Private}), MethodMember(SetterText(fs[0]))];
      forall i | 0 <= i < |fs|
        ensures MirrorMembers(fs)[2 * i] == FieldMember(fs[i], {Private})
        ensures MirrorMembers(fs)[2 * i + 1] == MethodMember(SetterText(fs[i]))
      {
        if i > 0 {
          assert fs[i] == fs[1..][i - 1];
          assert MirrorMembers(fs)[2 * i] == MirrorMembers(fs[1..])[2 * (i - 1)];
          assert MirrorMembers(fs)[2 * i + 1] == MirrorMembers(fs[1..])[2 * (i - 1) + 1];
        }
      }
    }
  }

  /** The generated `Builder` has 2n+2 members: the private constructor
      first, then each chosen field's private mirror immediately followed by
      its setter, in list order, and `build()` last. */
  lemma BuilderShape(owner: string, fs: seq<Field>)
    ensures |BuilderMembers(owner, fs)| == 2 * |fs| + 2
    ensures BuilderMembers(owner, fs)[0] == ConstructorMember({Private})
    ensures forall i :: 0 <= i < |fs| ==>
              BuilderMembers(owner, fs)[2 * i + 1] == FieldMember(fs[i], {Private}) &&
              BuilderMembers(owner, fs)[2 * i + 2] == MethodMember(SetterText(fs[i]))
    ensures BuilderMembers(owner, fs)[2 * |fs| + 1] == MethodMember(BuildText(owner))
  {
    MirrorMembersAt(fs);
    var bs := BuilderMembers(owner, fs);
    forall i | 0 <= i < |fs|
      ensures bs[2 * i + 1] == FieldMember(fs[i], {Private})
      ensures bs[2 * i + 2] == MethodMember(SetterText(fs[i]))
    {
      assert bs[2 * i + 1] == MirrorMembers(fs)[2 * i];
      assert bs[2 * i + 2] == MirrorMembers(fs)[2 * i + 1];
    }
  }

  lemma {:induction false} MirrorFields(fs: seq<Field>)
    ensures DeclaredFields(MirrorMembers(fs)) == fs
  {
    if fs != [] {
      var head := [FieldMember(fs[0], {Private}), MethodMember(SetterText(fs[0]))];
      DeclaredFieldsAppend(head, MirrorMembers(fs[1..]));
      assert DeclaredFields(head) == [fs[0]] by {
        assert head[1..][1..] == [];
      }
      MirrorFields(fs[1..]);
    }
  }

  /** The fields declared in the generated `Builder` are exactly the chosen
      fields, same names and types, in the same order. */
  lemma BuilderFieldsAreChosen(owner: string, fs: seq<Field>)
    ensures DeclaredFields(BuilderMembers(owner, fs)) == fs
  {
    var ctor := [ConstructorMember({Private})];
    var build := [MethodMember(BuildText(owner))];
    DeclaredFieldsAppend(ctor + MirrorMembers(fs), build);
    DeclaredFieldsAppend(ctor, MirrorMembers(fs));
    MirrorFields(fs);
    assert DeclaredFields(build) == [] by {
      assert build[1..] == [];
    }
  }

  /** Every text of the generated builder decodes to what it was built from:
      each setter to its field (name and type), `build()` to the owner. */
  lemma BuilderTextsDecode(owner: string, fs: seq<Field>)
    requires IsIdentifier(owner) && AllIdentifiers(Names(fs))
    ensures |BuilderMembers(owner, fs)| == 2 * |fs| + 2
    ensures forall i :: 0 <= i < |fs| ==>
              BuilderMembers(owner, fs)[2 * i + 2].MethodMember? &&
              ParseSetter(BuilderMembers(owner, fs)[2 * i + 2].text) == Some(fs[i])
    ensures BuilderMembers(owner, fs)[2 * |fs| + 1].MethodMember?
    ensures ParseBuild(BuilderMembers(owner, fs)[2 * |fs| + 1].text) == Some(owner)
  {
    BuilderShape(owner, fs);
    forall i | 0 <= i < |fs|
      ensures BuilderMembers(owner, fs)[2 * i + 2].MethodMember?
      ensures ParseSetter(BuilderMembers(owner, fs)[2 * i + 2].text) == Some(fs[i])
    {
      assert Names(fs)[i] == fs[i].name;
      SetterRoundTrip(fs[i]);
    }
    BuildRoundTrip(owner);
  }

  // ---------------------------------------------------------------------
  // What one and two generations do to the owner's member list

  /** One generation keeps every existing member at its position and appends
      the `Builder` class, then a constructor assigning exactly the chosen
      fields in list order (whatever fields an earlier `Builder` has), then
      the factory method, whose text depends on the owner name only. */
  lemma GenerationAppends(ms: seq<Member>, owner: string, fs: seq<Field>)
    requires IsIdentifier(owner) && AllIdentifiers(Names(fs))
    ensures var after := ms + GeneratedMembers(owner, fs);
      && |after| == |ms| + 3
      && after[..|ms|] == ms
      && IsBuilderClass(after[|ms|]) && after[|ms|].modifiers == {Public, Final, Static}
      && DeclaredFields(after[|ms|].members) == fs
      && after[|ms| + 1].MethodMember?
      && ParseConstructor(after[|ms| + 1].text) == Some((owner, Names(fs)))
      && after[|ms| + 2].MethodMember?
      && ParseFactory(after[|ms| + 2].text) == Some(owner)
  {
    BuilderFieldsAreChosen(owner, fs);
    ConstructorRoundTrip(owner, fs);
    FactoryRoundTrip(owner);
  }

  lemma GeneratedCounts(owner: string, fs: seq<Field>)
    requires IsIdentifier(owner) && AllIdentifiers(Names(fs))
    ensures Count(GeneratedMembers(owner, fs), IsBuilderClass) == 1
    ensures Count(GeneratedMembers(owner, fs), m => IsBuilderConstructorOf(m, owner)) == 1
    ensures Count(GeneratedMembers(owner, fs), m => IsFactoryOf(m, owner)) == 1
  {
    var g := GeneratedMembers(owner, fs);
    ConstructorRoundTrip(owner, fs);
    FactoryRoundTrip(owner);
    ConstructorIsNoFactory(owner, fs);
    FactoryIsNoConstructor(owner);
    CountOfThree(g[0], g[1], g[2], IsBuilderClass);
    CountOfThree(g[0], g[1], g[2], m => IsBuilderConstructorOf(m, owner));
    CountOfThree(g[0], g[1], g[2], m => IsFactoryOf(m, owner));
  }

  /** Generation performs no duplicate check: running it twice on the same
      owner, whatever fields each run chooses, adds two `Builder` classes, two
      builder constructors and two factory methods. */
  lemma GeneratedTwice(ms: seq<Member>, owner: string, fs1: seq<Field>, fs2: seq<Field>)
    requires IsIdentifier(owner) && AllIdentifiers(Names(fs1)) && AllIdentifiers(Names(fs2))
    ensures var after := ms + GeneratedMembers(owner, fs1) + GeneratedMembers(owner, fs2);
      && Count(after, IsBuilderClass) == Count(ms, IsBuilderClass) + 2
      && Count(after, m => IsBuilderConstructorOf(m, owner)) == Count(ms, m => IsBuilderConstructorOf(m, owner)) + 2
      && Count(after, m => IsFactoryOf(m, owner)) == Count(ms, m => IsFactoryOf(m, owner)) + 2
  {
    var g1, g2 := GeneratedMembers(owner, fs1), GeneratedMembers(owner, fs2);
    GeneratedCounts(owner, fs1);
    GeneratedCounts(owner, fs2);
    var ctor := (m: Member) => IsBuilderConstructorOf(m, owner);
    var factory := (m: Member) => IsFactoryOf(m, owner);
    CountAppend(ms + g1, g2, IsBuilderClass);
    CountAppend(ms, g1, IsBuilderClass);
    CountAppend(ms + g1, g2, ctor);
    CountAppend(ms, g1, ctor);
    CountAppend(ms + g1, g2, factory);
    CountAppend(ms, g1, factory);
  }

  // ---------------------------------------------------------------------
  // The generator

  class BuilderGenerator {
    const ownerClass: PsiClass
    const fieldsToGenerate: seq<Field>

    constructor (ownerClass: PsiClass, fieldsToGenerate: seq<Field>)
      ensures this.ownerClass == ownerClass && this.fieldsToGenerate == fieldsToGenerate
    {
      this.ownerClass := ownerClass;
      this.fieldsToGenerate := fieldsToGenerate;
    }

    method GenerateBuilderCode()
      modifies ownerClass
      ensures ownerClass.members == old(ownerClass.members) + GeneratedMembers(ownerClass.name, fieldsToGenerate)
      ensures ownerClass.modifiers == old(ownerClass.modifiers)
    {
      CreateBuilderClass();
      CreatePrivateConstructorWithBuilder();
      CreateBuilderFactoryMethod();
    }

    method CreatePrivateConstructorWithBuilder()
      modifies ownerClass
      ensures ownerClass.members == old(ownerClass.members) + [MethodMember(ConstructorText(ownerClass.name, fieldsToGenerate))]
      ensures ownerClass.modifiers == old(ownerClass.modifiers)
    {
      var fs := fieldsToGenerate;
      var head := "private " + ownerClass.name + "(Builder builder){\n";
      var methodText := head;
      for i := 0 to |fs|
        invariant methodText == head + AssignmentsText(Names(fs[..i]))
        invariant ownerClass.members == old(ownerClass.members) && ownerClass.modifiers == old(ownerClass.modifiers)
      {
        var field := fs[i];
        AssignLineAppended(methodText, field.name);
        Assoc(head, AssignmentsText(Names(fs[..i])), AssignLine(field.name));
        assert Names(fs[..i + 1]) == Names(fs[..i]) + [field.name];
        AssignmentsTextAppend(Names(fs[..i]), field.name);
        methodText := methodText + "this." + field.name + " = " + "builder." + field.name + ";\n";
      }
      methodText := methodText + "}";
      assert fs[..|fs|] == fs;
      ConstructorTextSpelled(ownerClass.name, fs);
      // createMethodFromText parses the text; the model keeps the text itself
      ownerClass.Add(MethodMember(methodText));
    }

    method CreateBuilderFactoryMethod()
      modifies ownerClass
      ensures ownerClass.members == old(ownerClass.members) + [MethodMember(FactoryText(ownerClass.name))]
      ensures ownerClass.modifiers == old(ownerClass.modifiers)
    {
      var methodText := "public static Builder new" + ownerClass.name + "(){\n" + "return new Builder();\n" + "}";
      FactoryTextSpelled(ownerClass.name);
      ownerClass.Add(MethodMember(methodText));
    }

    method CreateBuilderClass()
      modifies ownerClass
      ensures ownerClass.members == old(ownerClass.members) + [BuilderClass(ownerClass.name, fieldsToGenerate)]
      ensures ownerClass.modifiers == old(ownerClass.modifiers)
    {
      var fs := fieldsToGenerate;
      var builderClass := new PsiClass("Builder");
      builderClass.SetModifierProperty(Final, true);
      builderClass.SetModifierProperty(Static, true);
      // createConstructor yields a public no-argument constructor with an empty body
      var constructorModifiers := {Public};
      constructorModifiers := WithModifier(constructorModifiers, Private, true);
      assert constructorModifiers == {Private};
      var noArgConstructor := ConstructorMember(constructorModifiers);
      builderClass.Add(noArgConstructor);
      for i := 0 to |fs|
        invariant builderClass.members == [noArgConstructor] + MirrorMembers(fs[..i])
        invariant builderClass.modifiers == {Public, Final, Static}
        invariant ownerClass.members == old(ownerClass.members) && ownerClass.modifiers == old(ownerClass.modifiers)
      {
        var field := CreateBuilderField(fs[i]);
        builderClass.Add(field);
        var setter := CreateBuilderMethod(fs[i]);
        builderClass.Add(setter);
        assert fs[..i + 1] == fs[..i] + [fs[i]];
        MirrorMembersAppend(fs[..i], fs[i]);
      }
      var build := CreateBuildMethod();
      builderClass.Add(build);
      assert fs[..|fs|] == fs;
      ownerClass.Add(builderClass.AsMember());
    }

    method CreateBuildMethod() returns (m: Member)
      ensures m == MethodMember(BuildText(ownerClass.name))
    {
      var methodText := "public " + ownerClass.name + " build(){\n" + "return new " + ownerClass.name + "(this);\n" + "}";
      BuildTextSpelled(ownerClass.name);
      m := MethodMember(methodText);
    }

    method CreateBuilderField(field: Field) returns (m: Member)
      ensures m == FieldMember(field, {Private})
    {
      // createField declares a private field of the same name and type
      var fieldModifiers := {Private};
      fieldModifiers := WithModifier(fieldModifiers, Private, true);
      assert fieldModifiers == {Private};
      m := FieldMember(field, fieldModifiers);
    }

    method CreateBuilderMethod(field: Field) returns (m: Member)
      ensures m == MethodMember(SetterText(field))
    {
      var methodText := "public Builder " + field.name
        + "(" + field.typeText + " " + field.name + "){\n"
        + "this." + field.name + " = " + field.name + ";\n"
        + "return this;\n"
        + "}";
      SetterTextSpelled(field);
      m := MethodMember(methodText);
    }
  }
}
