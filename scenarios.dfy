/** How the dialog's offer and the generator's output interact over
    successive runs, for an owner class that inherits nothing (so that the
    look-ups the dialog relies on can be read off the owner's own members). */
module Scenarios {
  import opened Psi
  import opened Generation
  import opened Dialog

  /** The dialog's view of a class without superclasses: all fields and
      declared fields coincide, and the `Builder` look-up finds the first
      nested class of that name, whose fields are its declared ones. */
  function ViewOf(ms: seq<Member>): ClassView
  {
    ClassView(DeclaredFields(ms), DeclaredFields(ms),
      match FindInnerClass(ms, "Builder")
      case None => None
      case Some(b) => Some(DeclaredFields(b.members)))
  }

  lemma GeneratedDeclaresNoField(owner: string, fs: seq<Field>)
    ensures DeclaredFields(GeneratedMembers(owner, fs)) == []
  {
    var g := GeneratedMembers(owner, fs);
    assert g[2..][1..] == [];
    assert DeclaredFields(g[2..]) == [];
    assert g[1..][1..] == g[2..];
    assert DeclaredFields(g[1..]) == [];
  }

  /** After a first generation on an owner without a `Builder`, the dialog
      finds the new `Builder`, whose fields are the chosen ones, and offers
      exactly the owner's declared fields whose names were not chosen. */
  lemma EligibilityAfterGeneration(ms: seq<Member>, owner: string, fs: seq<Field>)
    requires FindInnerClass(ms, "Builder") == None
    ensures var view := ViewOf(ms + GeneratedMembers(owner, fs));
      && view.innerBuilder == Some(fs)
      && view.fields == DeclaredFields(ms)
      && forall f :: f in view.fields ==>
           (f in Additional(view.fields, fs) <==> !HasFieldNamed(fs, f.name))
  {
    var g := GeneratedMembers(owner, fs);
    FindInnerClassAppend(ms, g, "Builder");
    assert FindInnerClass(g, "Builder") == Some(BuilderClass(owner, fs));
    BuilderFieldsAreChosen(owner, fs);
    DeclaredFieldsAppend(ms, g);
    GeneratedDeclaresNoField(owner, fs);
    assert DeclaredFields(ms + g) == DeclaredFields(ms);
    AdditionalSound(DeclaredFields(ms), fs);
    AdditionalComplete(DeclaredFields(ms), fs);
  }

  /** Generation does not reuse an existing `Builder`: when the owner already
      has one, the look-up keeps finding that earlier class, not the one the
      new run appended. */
  lemma LookupKeepsEarlierBuilder(ms: seq<Member>, owner: string, fs: seq<Field>)
    requires FindInnerClass(ms, "Builder").Some?
    ensures FindInnerClass(ms + GeneratedMembers(owner, fs), "Builder") == FindInnerClass(ms, "Builder")
    ensures ViewOf(ms + GeneratedMembers(owner, fs)).innerBuilder == ViewOf(ms).innerBuilder
  {
    FindInnerClassAppend(ms, GeneratedMembers(owner, fs), "Builder");
  }
}
