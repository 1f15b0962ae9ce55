/** The source text of the methods the generator creates, as the string
    concatenations BuilderGenerator performs, and a parser for each text that
    recovers what the text was built from. The round-trip lemmas say that each
    text carries exactly its inputs: the field (name and type) of a setter, the
    owner of `build()` and of the factory method, and the owner and the ordered
    list of assigned field names of the builder constructor. */
module GeneratedText {
  import opened Psi

  /** A superset of Java's identifier characters: ASCII letters, digits,
      `_`, `$`, and every non-ASCII character. It is enough to delimit a name
      from the ASCII punctuation of the generated texts, none of which is
      among them. */
  predicate IsIdentChar(c: char)
  {
    ('a' <= c <= 'z') || ('A' <= c <= 'Z') || ('0' <= c <= '9') || c == '_' || c == '$' || c as int >= 128
  }

  predicate IsIdentifier(s: string)
  {
    |s| > 0 && forall i :: 0 <= i < |s| ==> IsIdentChar(s[i])
  }

  predicate AllIdentifiers(names: seq<string>)
  {
    forall i :: 0 <= i < |names| ==> IsIdentifier(names[i])
  }

  /** The names of a field list, in order. */
  function Names(fs: seq<Field>): (r: seq<string>)
  {
    seq(|fs|, i requires 0 <= i < |fs| => fs[i].name)
  }

  /** Length of the longest prefix of `s` made of identifier characters. */
  function IdentLength(s: string): (n: nat)
    ensures n <= |s|
    ensures forall i :: 0 <= i < n ==> IsIdentChar(s[i])
    ensures n < |s| ==> !IsIdentChar(s[n])
  {
    if s == [] || !IsIdentChar(s[0]) then 0 else 1 + IdentLength(s[1..])
  }

  lemma {:induction false} IdentLengthOf(id: string, rest: string)
    requires forall i :: 0 <= i < |id| ==> IsIdentChar(id[i])
    requires rest != [] && !IsIdentChar(rest[0])
    ensures IdentLength(id + rest) == |id|
  {
    if id == [] {
      assert id + rest == rest;
    } else {
      assert (id + rest)[1..] == id[1..] + rest;
      IdentLengthOf(id[1..], rest);
    }
  }

  lemma SplitAt(a: string, b: string)
    ensures a <= a + b && (a + b)[..|a|] == a && (a + b)[|a|..] == b
  {
  }

  lemma PrefixRejoin(p: string, s: string)
    requires p <= s
    ensures s == p + s[|p|..]
  {
  }

  lemma Rejoin(s: string, k: nat)
    requires k <= |s|
    ensures s == s[..k] + s[k..]
  {
  }

  lemma Assoc(a: string, b: string, c: string)
    ensures (a + b) + c == a + (b + c)
  {
  }

  // ---------------------------------------------------------------------
  // Texts, as BuilderGenerator concatenates them

  /** What follows the parameter type in a setter. */
  function SetterTail(name: string): string
  {
    " " + (name + ("){\n" + ("this." + (name + (" = " + (name + (";\n" + ("return this;\n" + "}"))))))))
  }

  /** The fluent setter for a field: `public Builder f(T f){ this.f = f; return this; }`. */
  function SetterText(f: Field): string
  {
    "public Builder " + (f.name + ("(" + (f.typeText + SetterTail(f.name))))
  }

  function BuildTail(owner: string): string
  {
    " build(){\n" + ("return new " + (owner + ("(this);\n" + "}")))
  }

  /** The builder's terminal method: `public Owner build(){ return new Owner(this); }`. */
  function BuildText(owner: string): string
  {
    "public " + (owner + BuildTail(owner))
  }

  const FactoryTail: string := "(){\n" + ("return new Builder();\n" + "}")

  /** The owner's factory method: `public static Builder newOwner(){ return new Builder(); }`. */
  function FactoryText(owner: string): string
  {
    "public static Builder new" + (owner + FactoryTail)
  }

  function AssignTail(name: string): string
  {
    " = " + ("builder." + (name + ";\n"))
  }

  /** One statement of the builder constructor: `this.f = builder.f;`. */
  function AssignLine(name: string): string
  {
    "this." + (name + AssignTail(name))
  }

  function AssignmentsText(names: seq<string>): string
  {
    if names == [] then "" else AssignLine(names[0]) + AssignmentsText(names[1..])
  }

  const ConstructorHead: string := "(Builder builder){\n"

  /** The owner's constructor taking a builder: one assignment per chosen field, in order. */
  function ConstructorText(owner: string, fs: seq<Field>): string
  {
    "private " + (owner + (ConstructorHead + (AssignmentsText(Names(fs)) + "}")))
  }

  lemma {:induction false} AssignmentsTextAppend(names: seq<string>, name: string)
    ensures AssignmentsText(names + [name]) == AssignmentsText(names) + AssignLine(name)
  {
    if names == [] {
      assert names + [name] == [name];
      assert AssignmentsText([name]) == AssignLine(name) + AssignmentsText([]);
    } else {
      assert (names + [name])[0] == names[0];
      assert (names + [name])[1..] == names[1..] + [name];
      AssignmentsTextAppend(names[1..], name);
    }
  }

  // ---------------------------------------------------------------------
  // Parsers: each recovers the inputs of one text

  function ParseSetter(t: string): Option<Field>
  {
    var p := "public Builder ";
    if !(p <= t) then None
    else
      var rest := t[|p|..];
      var n := IdentLength(rest);
      if n == 0 || !("(" <= rest[n..]) then None
      else
        var name := rest[..n];
        var body := rest[n + 1..];
        var tail := SetterTail(name);
        if |body| < |tail| || body[|body| - |tail|..] != tail then None
        else Some(Field(name, body[..|body| - |tail|]))
  }

  function ParseBuild(t: string): Option<string>
  {
    var p := "public ";
    if !(p <= t) then None
    else
      var rest := t[|p|..];
      var n := IdentLength(rest);
      if n == 0 || rest[n..] != BuildTail(rest[..n]) then None else Some(rest[..n])
  }

  function ParseFactory(t: string): Option<string>
  {
    var p := "public static Builder new";
    if !(p <= t) then None
    else
      var rest := t[|p|..];
      var n := IdentLength(rest);
      if n == 0 || rest[n..] != FactoryTail then None else Some(rest[..n])
  }

  /** Parses one `this.f = builder.f;` statement; returns the name and what follows. */
  function ParseAssignLine(s: string): (r: Option<(string, string)>)
    ensures r.Some? ==> |r.value.1| < |s|
  {
    if !("this." <= s) then None
    else
      var rest := s[5..];
      var n := IdentLength(rest);
      if n == 0 then None
      else
        var name := rest[..n];
        var after := rest[n..];
        var tail := AssignTail(name);
        if !(tail <= after) then None else Some((name, after[|tail|..]))
  }

  /** Parses a run of `this.f = builder.f;` statements closed by `}`. */
  function ParseAssignments(s: string): Option<seq<string>>
    decreases |s|
  {
    if s == "}" then Some([])
    else
      match ParseAssignLine(s)
      case None => None
      case Some((name, later)) =>
        match ParseAssignments(later)
        case None => None
        case Some(names) => Some([name] + names)
  }

  /** Parses a builder constructor into its owner name and assigned field names. */
  function ParseConstructor(t: string): Option<(string, seq<string>)>
  {
    var p := "private ";
    if !(p <= t) then None
    else
      var rest := t[|p|..];
      var n := IdentLength(rest);
      if n == 0 || !(ConstructorHead <= rest[n..]) then None
      else
        match ParseAssignments(rest[n..][|ConstructorHead|..])
        case None => None
        case Some(names) => Some((rest[..n], names))
  }

  // ---------------------------------------------------------------------
  // Round trips, both directions

  lemma SetterRoundTrip(f: Field)
    requires IsIdentifier(f.name)
    ensures ParseSetter(SetterText(f)) == Some(f)
  {
    var p := "public Builder ";
    var tail := SetterTail(f.name);
    var body := f.typeText + tail;
    var rest := f.name + ("(" + body);
    SplitAt(p, rest);
    IdentLengthOf(f.name, "(" + body);
    SplitAt(f.name, "(" + body);
    SplitAt("(", body);
    SplitAt(f.typeText, tail);
  }

  lemma SetterParseSound(t: string, f: Field)
    requires ParseSetter(t) == Some(f)
    ensures IsIdentifier(f.name) && SetterText(f) == t
  {
    var p := "public Builder ";
    var rest := t[|p|..];
    var n := IdentLength(rest);
    var body := rest[n + 1..];
    var tail := SetterTail(f.name);
    assert body == f.typeText + tail;
    assert rest == f.name + ("(" + body);
    assert t == p + rest;
  }

  lemma BuildRoundTrip(owner: string)
    requires IsIdentifier(owner)
    ensures ParseBuild(BuildText(owner)) == Some(owner)
  {
    var p := "public ";
    var rest := owner + BuildTail(owner);
    assert BuildText(owner) == p + rest;
    assert BuildText(owner)[|p|..] == rest;
    IdentLengthOf(owner, BuildTail(owner));
    assert rest[..|owner|] == owner;
    assert rest[|owner|..] == BuildTail(owner);
  }

  lemma BuildParseSound(t: string, owner: string)
    requires ParseBuild(t) == Some(owner)
    ensures IsIdentifier(owner) && BuildText(owner) == t
  {
    var p := "public ";
    var rest := t[|p|..];
    var n := IdentLength(rest);
    assert rest == rest[..n] + rest[n..];
    assert t == p + rest;
  }

  lemma FactoryRoundTrip(owner: string)
    requires IsIdentifier(owner)
    ensures ParseFactory(FactoryText(owner)) == Some(owner)
  {
    var p := "public static Builder new";
    var rest := owner + FactoryTail;
    assert FactoryText(owner) == p + rest;
    assert FactoryText(owner)[|p|..] == rest;
    IdentLengthOf(owner, FactoryTail);
    assert rest[..|owner|] == owner;
    assert rest[|owner|..] == FactoryTail;
  }

  lemma FactoryParseSound(t: string, owner: string)
    requires ParseFactory(t) == Some(owner)
    ensures IsIdentifier(owner) && FactoryText(owner) == t
  {
    var p := "public static Builder new";
    var rest := t[|p|..];
    var n := IdentLength(rest);
    assert rest == rest[..n] + rest[n..];
    assert t == p + rest;
  }

  lemma AssignLineRoundTrip(name: string, later: string)
    requires IsIdentifier(name)
    ensures ParseAssignLine(AssignLine(name) + later) == Some((name, later))
  {
    var tail := AssignTail(name);
    var rest := name + (tail + later);
    Assoc("this.", name + tail, later);
    Assoc(name, tail, later);
    SplitAt("this.", rest);
    IdentLengthOf(name, tail + later);
    SplitAt(name, tail + later);
    SplitAt(tail, later);
  }

  lemma AssignLineParseSound(s: string, name: string, later: string)
    requires ParseAssignLine(s) == Some((name, later))
    ensures IsIdentifier(name) && s == AssignLine(name) + later
  {
    var rest := s[5..];
    var n := IdentLength(rest);
    var after := rest[n..];
    var tail := AssignTail(name);
    PrefixRejoin("this.", s);
    Rejoin(rest, n);
    PrefixRejoin(tail, after);
    Assoc("this.", name + tail, later);
    Assoc(name, tail, later);
  }

  lemma {:induction false} AssignmentsRoundTrip(names: seq<string>)
    requires AllIdentifiers(names)
    ensures ParseAssignments(AssignmentsText(names) + "}") == Some(names)
  {
    if names == [] {
      assert AssignmentsText(names) + "}" == "}";
    } else {
      var name := names[0];
      var later := AssignmentsText(names[1..]) + "}";
      var s := AssignmentsText(names) + "}";
      Assoc(AssignLine(name), AssignmentsText(names[1..]), "}");
      assert s == AssignLine(name) + later;
      assert s[0] == 't';
      assert IsIdentifier(name);
      AssignLineRoundTrip(name, later);
      assert AllIdentifiers(names[1..]);
      AssignmentsRoundTrip(names[1..]);
      assert [name] + names[1..] == names;
    }
  }

  lemma {:induction false} AssignmentsParseSound(s: string, names: seq<string>)
    requires ParseAssignments(s) == Some(names)
    ensures AllIdentifiers(names) && AssignmentsText(names) + "}" == s
    decreases |s|
  {
    if s != "}" {
      var line := ParseAssignLine(s).value;
      var name, later := line.0, line.1;
      var names' := ParseAssignments(later).value;
      assert names == [name] + names';
      AssignLineParseSound(s, name, later);
      AssignmentsParseSound(later, names');
      assert names[1..] == names';
      Assoc(AssignLine(name), AssignmentsText(names'), "}");
    }
  }

  lemma ConstructorRoundTrip(owner: string, fs: seq<Field>)
    requires IsIdentifier(owner) && AllIdentifiers(Names(fs))
    ensures ParseConstructor(ConstructorText(owner, fs)) == Some((owner, Names(fs)))
  {
    var p := "private ";
    var later := AssignmentsText(Names(fs)) + "}";
    var rest := owner + (ConstructorHead + later);
    assert ConstructorText(owner, fs) == p + rest;
    assert ConstructorText(owner, fs)[|p|..] == rest;
    IdentLengthOf(owner, ConstructorHead + later);
    assert rest[..|owner|] == owner;
    assert rest[|owner|..] == ConstructorHead + later;
    assert rest[|owner|..][|ConstructorHead|..] == later;
    AssignmentsRoundTrip(Names(fs));
  }

  lemma ConstructorParseSound(t: string, owner: string, names: seq<string>)
    requires ParseConstructor(t) == Some((owner, names))
    ensures IsIdentifier(owner) && AllIdentifiers(names)
    ensures t == "private " + (owner + (ConstructorHead + (AssignmentsText(names) + "}")))
  {
    var p := "private ";
    var rest := t[|p|..];
    var n := IdentLength(rest);
    var later := rest[n..][|ConstructorHead|..];
    AssignmentsParseSound(later, names);
    PrefixRejoin(p, t);
    Rejoin(rest, n);
    PrefixRejoin(ConstructorHead, rest[n..]);
  }

  // ---------------------------------------------------------------------
  // The texts as the generator spells them, as a chain of appends

  lemma AssignLineAppended(acc: string, name: string)
    ensures acc + "this." + name + " = " + "builder." + name + ";\n" == acc + AssignLine(name)
  {
  }

  lemma ConstructorTextSpelled(owner: string, fs: seq<Field>)
    ensures "private " + owner + "(Builder builder){\n" + AssignmentsText(Names(fs)) + "}" == ConstructorText(owner, fs)
  {
  }

  lemma FactoryTextSpelled(owner: string)
    ensures "public static Builder new" + owner + "(){\n" + "return new Builder();\n" + "}" == FactoryText(owner)
  {
  }

  lemma BuildTextSpelled(owner: string)
    ensures "public " + owner + " build(){\n" + "return new " + owner + "(this);\n" + "}" == BuildText(owner)
  {
  }

  lemma SetterTextSpelled(f: Field)
    ensures "public Builder " + f.name
            + "(" + f.typeText + " " + f.name + "){\n"
            + "this." + f.name + " = " + f.name + ";\n"
            + "return this;\n"
            + "}" == SetterText(f)
  {
  }

  // ---------------------------------------------------------------------
  // The builder constructor and the factory method are told apart by their texts

  lemma ConstructorIsNoFactory(owner: string, fs: seq<Field>)
    ensures ParseFactory(ConstructorText(owner, fs)) == None
  {
    var t := ConstructorText(owner, fs);
    assert t[1] == 'r';
    assert !("public static Builder new" <= t);
  }

  lemma FactoryIsNoConstructor(owner: string)
    ensures ParseConstructor(FactoryText(owner)) == None
  {
    var t := FactoryText(owner);
    assert t[1] == 'u';
    assert !("private " <= t);
  }
}
