/** The schema compatibility check: structural changes that need a new schema version.

    A JSON object is kept as its fields in order. The text Python gives a signature when it is
    a member of a union is a parameter; nothing is asked of it. */
module Compatibility {
  import opened Options
  import opened Ordering

  datatype TypeName = One(name: string) | Many(names: seq<string>)

  datatype Field = Field(name: string, schema: Schema)

  datatype Branches = NoBranches | AnyOf(members: seq<Schema>)

  datatype Schema = Schema(
    properties: seq<Field>,
    required: seq<string>,
    reference: Option<string>,
    typeName: Option<TypeName>,
    anyOf: Branches,
    constant: Option<string>,
    enumeration: seq<string>,
    defs: seq<Field>)

  const NO_SCHEMA := Schema([], [], None, None, NoBranches, None, [], [])

  function Get(fields: seq<Field>, name: string): (found: Option<Schema>)
    ensures found.Some? ==> Field(name, found.value) in fields
    ensures found.None? <==> forall f :: f in fields ==> f.name != name
  {
    if fields == [] then None
    else if fields[0].name == name then Some(fields[0].schema)
    else Get(fields[1..], name)
  }

  /** No JSON object repeats a key. */
  ghost predicate WellFormed(s: Schema) {
    && DistinctNames(s.properties) && DistinctNames(s.defs)
    && (forall f :: f in s.properties ==> WellFormed(f.schema))
    && (forall f :: f in s.defs ==> WellFormed(f.schema))
  }

  ghost predicate DistinctNames(fields: seq<Field>) {
    forall i, j :: 0 <= i < j < |fields| ==> fields[i].name != fields[j].name
  }

  function SchemaVersion(s: Schema): Option<string> {
    var version := match Get(s.properties, "schema_version") case Some(v) => v case None => NO_SCHEMA;
    if version.constant.Some? then version.constant
    else if |version.enumeration| == 1 then Some(version.enumeration[0])
    else None
  }

  /** A union's members are compared as a sorted tuple of texts, that is, as a multiset. */
  datatype Signature =
    | Reference(name: string)
    | Typed(typeName: TypeName)
    | Union(members: multiset<string>)
    | Untyped

  function TypeSignature(text: Signature -> string, s: Schema): Signature {
    if s.reference.Some? then Reference(s.reference.value)
    else if s.typeName.Some? then Typed(s.typeName.value)
    else if s.anyOf.AnyOf? then Union(multiset(MemberTexts(text, s.anyOf.members)))
    else Untyped
  }

  function MemberTexts(text: Signature -> string, members: seq<Schema>): seq<string> {
    if members == [] then [] else [text(TypeSignature(text, members[0]))] + MemberTexts(text, members[1..])
  }

  // ---- what the check reports ----

  function Names(names: seq<string>): set<string> {
    set n | n in names
  }

  function FieldPath(path: string, name: string): string {
    if path == "" then name else path + "." + name
  }

  function Dropped(path: string, names: seq<string>): (errors: seq<string>)
    ensures |errors| == |names|
  {
    seq(|names|, i requires 0 <= i < |names| => (if path == "" then "$" else path) + "." + names[i] + " is no longer required")
  }

  ghost function ObjectErrors(text: Signature -> string, path: string, b: Schema, c: Schema): seq<string>
    decreases b, 1, 0
  {
    Dropped(path, SortedStrings(Names(b.required) - Names(c.required))) + FieldErrors(text, path, b, c, |b.properties|)
  }

  ghost function FieldErrors(text: Signature -> string, path: string, b: Schema, c: Schema, n: nat): seq<string>
    requires n <= |b.properties|
    decreases b, 0, n
  {
    if n == 0 then []
    else FieldErrors(text, path, b, c, n - 1) + OneFieldErrors(text, path, b, c, n - 1)
  }

  ghost function OneFieldErrors(text: Signature -> string, path: string, b: Schema, c: Schema, i: nat): seq<string>
    requires i < |b.properties|
    decreases b, 0, i, 0
  {
    var f := b.properties[i];
    var fieldPath := FieldPath(path, f.name);
    match Get(c.properties, f.name)
    case None => [fieldPath + " was removed"]
    case Some(g) =>
      (if TypeSignature(text, f.schema) != TypeSignature(text, g) then [fieldPath + " changed type"] else [])
      + ObjectErrors(text, fieldPath, f.schema, g)
  }

  ghost function DefErrors(text: Signature -> string, b: Schema, c: Schema, n: nat): seq<string>
    requires n <= |b.defs|
  {
    if n == 0 then []
    else DefErrors(text, b, c, n - 1) + OneDefErrors(text, b.defs[n - 1], c)
  }

  ghost function OneDefErrors(text: Signature -> string, f: Field, c: Schema): seq<string> {
    match Get(c.defs, f.name)
    case None => ["$defs." + f.name + " was removed"]
    case Some(g) => ObjectErrors(text, "$defs." + f.name, f.schema, g)
  }

  ghost function Errors(text: Signature -> string, b: Schema, c: Schema): seq<string> {
    if SchemaVersion(b) != SchemaVersion(c) then []
    else ObjectErrors(text, "", b, c) + DefErrors(text, b, c, |b.defs|)
  }

  // ---- the check as the program runs it ----

  class ErrorLog {
    var errors: seq<string>

    constructor ()
      ensures errors == []
    {
      errors := [];
    }

    method ReportDropped(path: string, b: Schema, c: Schema)
      modifies this
      ensures errors == old(errors) + Dropped(path, SortedStrings(Names(b.required) - Names(c.required)))
    {
      var dropped := SortStrings(Names(b.required) - Names(c.required));
      for i := 0 to |dropped|
        invariant errors == old(errors) + Dropped(path, dropped)[..i]
      {
        errors := errors + [(if path == "" then "$" else path) + "." + dropped[i] + " is no longer required"];
      }
      assert Dropped(path, dropped)[..|dropped|] == Dropped(path, dropped);
    }

    method CompareField(text: Signature -> string, path: string, b: Schema, c: Schema, i: nat)
      requires i < |b.properties|
      modifies this
      ensures errors == old(errors) + OneFieldErrors(text, path, b, c, i)
      decreases b, 0
    {
      hide ObjectErrors, TypeSignature, FieldPath;
      var f := b.properties[i];
      var fieldPath := FieldPath(path, f.name);
      var found := Get(c.properties, f.name);
      if found.None? {
        errors := errors + [fieldPath + " was removed"];
        return;
      }
      if TypeSignature(text, f.schema) != TypeSignature(text, found.value) {
        errors := errors + [fieldPath + " changed type"];
      }
      CompareObject(text, fieldPath, f.schema, found.value);
    }

    method CompareObject(text: Signature -> string, path: string, b: Schema, c: Schema)
      modifies this
      ensures errors == old(errors) + ObjectErrors(text, path, b, c)
      decreases b, 1
    {
      hide Dropped, OneFieldErrors;
      ReportDropped(path, b, c);
      ghost var middle := errors;
      for i := 0 to |b.properties|
        invariant errors == middle + FieldErrors(text, path, b, c, i)
      {
        CompareField(text, path, b, c, i);
      }
    }

    method CompareDef(text: Signature -> string, f: Field, c: Schema)
      modifies this
      ensures errors == old(errors) + OneDefErrors(text, f, c)
    {
      hide ObjectErrors;
      var found := Get(c.defs, f.name);
      if found.None? {
        errors := errors + ["$defs." + f.name + " was removed"];
        return;
      }
      CompareObject(text, "$defs." + f.name, f.schema, found.value);
    }

    method CompareDefs(text: Signature -> string, b: Schema, c: Schema)
      modifies this
      ensures errors == old(errors) + DefErrors(text, b, c, |b.defs|)
    {
      hide OneDefErrors;
      for i := 0 to |b.defs|
        invariant errors == old(errors) + DefErrors(text, b, c, i)
      {
        CompareDef(text, b.defs[i], c);
      }
    }
  }

  method BackwardCompatibilityErrors(text: Signature -> string, b: Schema, c: Schema) returns (errors: seq<string>)
    ensures errors == Errors(text, b, c)
  {
    hide ObjectErrors, DefErrors, SchemaVersion;
    if SchemaVersion(b) != SchemaVersion(c) {
      return [];
    }
    var log := new ErrorLog();
    log.CompareObject(text, "", b, c);
    log.CompareDefs(text, b, c);
    errors := log.errors;
    assert errors == [] + ObjectErrors(text, "", b, c) + DefErrors(text, b, c, |b.defs|);
  }

  // ---- what an empty report means ----

  /** The candidate keeps every required field and every property, with its signature and,
      in turn, all of its own. */
  ghost predicate Keeps(text: Signature -> string, b: Schema, c: Schema)
    decreases b
  {
    && Names(b.required) <= Names(c.required)
    && forall f :: f in b.properties ==> KeepsField(text, f, c.properties, b)
  }

  ghost predicate KeepsField(text: Signature -> string, f: Field, fields: seq<Field>, b: Schema)
    requires f in b.properties
    decreases b, 0
  {
    var g := Get(fields, f.name);
    g.Some? && SameType(text, f.schema, g.value) && Keeps(text, f.schema, g.value)
  }

  /** Two fields have the same type: a reference counts before a type, a type before a union,
      and the order of a union's members does not count. */
  ghost predicate SameType(text: Signature -> string, a: Schema, b: Schema) {
    if a.reference.Some? || b.reference.Some? then a.reference == b.reference
    else if a.typeName.Some? || b.typeName.Some? then a.typeName == b.typeName
    else if a.anyOf.AnyOf? || b.anyOf.AnyOf? then
      a.anyOf.AnyOf? && b.anyOf.AnyOf?
      && multiset(MemberTexts(text, a.anyOf.members)) == multiset(MemberTexts(text, b.anyOf.members))
    else true
  }

  lemma SignaturesMean(text: Signature -> string, a: Schema, b: Schema)
    ensures TypeSignature(text, a) == TypeSignature(text, b) <==> SameType(text, a, b)
  {
  }

  /** Where different signatures have different texts, the members of equal unions have, one for
      one and in some order, the same types. */
  lemma {:induction false} UnionsMatch(text: Signature -> string, a: seq<Schema>, b: seq<Schema>) returns (order: seq<nat>)
    requires forall x, y :: text(x) == text(y) ==> x == y
    requires multiset(MemberTexts(text, a)) == multiset(MemberTexts(text, b))
    ensures |order| == |a| == |b|
    ensures forall i :: 0 <= i < |a| ==> order[i] < |b| && SameType(text, a[i], b[order[i]])
    ensures forall i, j :: 0 <= i < j < |a| ==> order[i] != order[j]
  {
    hide SameType, TypeSignature;
    TextsOfMembers(text, a);
    TextsOfMembers(text, b);
    order := Matching(MemberTexts(text, a), MemberTexts(text, b));
    forall i | 0 <= i < |a|
      ensures SameType(text, a[i], b[order[i]])
    {
      SignaturesMean(text, a[i], b[order[i]]);
    }
  }

  lemma {:induction false} TextsOfMembers(text: Signature -> string, members: seq<Schema>)
    ensures |MemberTexts(text, members)| == |members|
    ensures forall i :: 0 <= i < |members| ==> MemberTexts(text, members)[i] == text(TypeSignature(text, members[i]))
  {
    hide TypeSignature;
    if members != [] {
      TextsOfMembers(text, members[1..]);
    }
  }

  /** Equal multisets are matched index by index. */
  lemma {:induction false} Matching(xs: seq<string>, ys: seq<string>) returns (order: seq<nat>)
    requires multiset(xs) == multiset(ys)
    ensures |order| == |xs| == |ys|
    ensures forall i :: 0 <= i < |xs| ==> order[i] < |ys| && xs[i] == ys[order[i]]
    ensures forall i, j :: 0 <= i < j < |xs| ==> order[i] != order[j]
  {
    assert |xs| == |multiset(xs)| == |ys|;
    if xs == [] {
      order := [];
    } else {
      var k := OneMatch(xs, ys);
      var later := Matching(xs[1..], ys[..k] + ys[k + 1..]);
      order := [k] + seq(|later|, i requires 0 <= i < |later| => if later[i] < k then later[i] else later[i] + 1);
      forall i | 0 <= i < |xs|
        ensures order[i] < |ys| && xs[i] == ys[order[i]]
      {
        if i > 0 {
          assert xs[i] == xs[1..][i - 1] == (ys[..k] + ys[k + 1..])[later[i - 1]];
        }
      }
    }
  }

  lemma OneMatch(xs: seq<string>, ys: seq<string>) returns (k: nat)
    requires multiset(xs) == multiset(ys) && xs != []
    ensures k < |ys| && ys[k] == xs[0]
    ensures multiset(xs[1..]) == multiset(ys[..k] + ys[k + 1..])
  {
    assert xs == [xs[0]] + xs[1..];
    assert xs[0] in multiset(ys);
    k :| 0 <= k < |ys| && ys[k] == xs[0];
    assert ys == ys[..k] + [ys[k]] + ys[k + 1..];
    assert multiset(xs[1..]) == multiset(xs) - multiset{xs[0]};
    assert multiset(ys[..k] + ys[k + 1..]) == multiset(ys) - multiset{ys[k]};
  }

  ghost predicate Compatible(text: Signature -> string, b: Schema, c: Schema) {
    && Keeps(text, b, c)
    && forall f :: f in b.defs ==> KeepsDef(text, f, c)
  }

  ghost predicate KeepsDef(text: Signature -> string, f: Field, c: Schema) {
    Get(c.defs, f.name).Some? && Keeps(text, f.schema, Get(c.defs, f.name).value)
  }

  lemma {:induction false} ObjectErrorsMean(text: Signature -> string, path: string, b: Schema, c: Schema)
    ensures ObjectErrors(text, path, b, c) == [] <==> Keeps(text, b, c)
    decreases b, 1, 0
  {
    hide KeepsField, FieldErrors;
    NothingDropped(b, c);
    FieldErrorsMean(text, path, b, c, |b.properties|);
    assert forall f :: f in b.properties <==> exists i :: 0 <= i < |b.properties| && b.properties[i] == f;
  }

  lemma NothingDropped(b: Schema, c: Schema)
    ensures SortedStrings(Names(b.required) - Names(c.required)) == [] <==> Names(b.required) <= Names(c.required)
  {
    var gone := Names(b.required) - Names(c.required);
    StringsListed(gone);
    hide SortedStrings, Names;
    if Names(b.required) <= Names(c.required) {
      assert gone == {};
    } else {
      var x :| x in Names(b.required) && x !in Names(c.required);
      assert x in gone;
    }
  }

  lemma {:induction false} FieldErrorsMean(text: Signature -> string, path: string, b: Schema, c: Schema, n: nat)
    requires n <= |b.properties|
    ensures FieldErrors(text, path, b, c, n) == []
            <==> forall i :: 0 <= i < n ==> KeepsField(text, b.properties[i], c.properties, b)
    decreases b, 0, n
  {
    hide OneFieldErrors, KeepsField;
    if n > 0 {
      FieldErrorsMean(text, path, b, c, n - 1);
      OneFieldMeans(text, path, b, c, n - 1);
      var before, one := FieldErrors(text, path, b, c, n - 1), OneFieldErrors(text, path, b, c, n - 1);
      assert before + one == [] <==> before == [] && one == [];
    }
  }

  lemma {:induction false} OneFieldMeans(text: Signature -> string, path: string, b: Schema, c: Schema, i: nat)
    requires i < |b.properties|
    ensures OneFieldErrors(text, path, b, c, i) == [] <==> KeepsField(text, b.properties[i], c.properties, b)
    decreases b, 0, i, 0
  {
    hide ObjectErrors, Keeps, TypeSignature, FieldPath, SameType;
    var f := b.properties[i];
    var g := Get(c.properties, f.name);
    if g.Some? {
      SignaturesMean(text, f.schema, g.value);
      ObjectErrorsMean(text, FieldPath(path, f.name), f.schema, g.value);
    }
  }

  lemma OneDefMeans(text: Signature -> string, f: Field, c: Schema)
    ensures OneDefErrors(text, f, c) == [] <==> KeepsDef(text, f, c)
  {
    hide ObjectErrors, Keeps;
    var g := Get(c.defs, f.name);
    if g.Some? {
      ObjectErrorsMean(text, "$defs." + f.name, f.schema, g.value);
    }
  }

  lemma {:induction false} DefErrorsMean(text: Signature -> string, b: Schema, c: Schema, n: nat)
    requires n <= |b.defs|
    ensures DefErrors(text, b, c, n) == [] <==> forall i :: 0 <= i < n ==> KeepsDef(text, b.defs[i], c)
  {
    hide OneDefErrors, KeepsDef;
    if n > 0 {
      DefErrorsMean(text, b, c, n - 1);
      OneDefMeans(text, b.defs[n - 1], c);
      var before, one := DefErrors(text, b, c, n - 1), OneDefErrors(text, b.defs[n - 1], c);
      assert before + one == [] <==> before == [] && one == [];
    }
  }

  /** A changed version silences the check; between schemas of one version it reports nothing
      exactly when the candidate keeps every definition, nested property, type signature and
      required field of the baseline. */
  lemma NoErrorsMeansCompatible(text: Signature -> string, b: Schema, c: Schema)
    ensures Errors(text, b, c) == [] <==> SchemaVersion(b) != SchemaVersion(c) || Compatible(text, b, c)
  {
    hide ObjectErrors, DefErrors, Keeps;
    ObjectErrorsMean(text, "", b, c);
    DefErrorsMean(text, b, c, |b.defs|);
    assert forall f :: f in b.defs <==> exists i :: 0 <= i < |b.defs| && b.defs[i] == f;
  }

  // ---- what each line of the report means ----

  /** A line of the comparison of two objects: a field no longer required, a property removed or
      of another type, or a line about what lies within a property both have. */
  ghost predicate Finds(text: Signature -> string, path: string, b: Schema, c: Schema, line: string)
    decreases b
  {
    || (exists n :: n in b.required && n !in c.required
                    && line == (if path == "" then "$." else path + ".") + n + " is no longer required")
    || (exists f :: f in b.properties && FindsIn(text, path, f, c.properties, line, b))
  }

  ghost predicate FindsIn(text: Signature -> string, path: string, f: Field, fields: seq<Field>, line: string, b: Schema)
    requires f in b.properties
    decreases b, 0
  {
    var here := if path == "" then f.name else path + "." + f.name;
    match Get(fields, f.name)
    case None => line == here + " was removed"
    case Some(g) => (!SameType(text, f.schema, g) && line == here + " changed type") || Finds(text, here, f.schema, g, line)
  }

  ghost predicate FindsInDef(text: Signature -> string, f: Field, c: Schema, line: string) {
    match Get(c.defs, f.name)
    case None => line == "$defs." + f.name + " was removed"
    case Some(g) => Finds(text, "$defs." + f.name, f.schema, g, line)
  }

  lemma {:induction false} ObjectLines(text: Signature -> string, path: string, b: Schema, c: Schema, line: string)
    ensures line in ObjectErrors(text, path, b, c) <==> Finds(text, path, b, c, line)
    decreases b, 1, 0
  {
    hide FindsIn, FieldErrors, Dropped;
    DroppedLines(path, b, c, line);
    FieldLines(text, path, b, c, |b.properties|, line);
    assert forall f :: f in b.properties <==> exists i :: 0 <= i < |b.properties| && b.properties[i] == f;
  }

  lemma DroppedLines(path: string, b: Schema, c: Schema, line: string)
    ensures line in Dropped(path, SortedStrings(Names(b.required) - Names(c.required)))
            <==> exists n :: n in b.required && n !in c.required
                             && line == (if path == "" then "$." else path + ".") + n + " is no longer required"
  {
    var gone := Names(b.required) - Names(c.required);
    StringsListed(gone);
    var names := SortedStrings(gone);
    hide SortedStrings;
    assert forall n :: n in names <==> n in b.required && n !in c.required by {
      hide Lists;
      assert forall n :: n in Names(b.required) <==> n in b.required;
      assert forall n :: n in Names(c.required) <==> n in c.required;
    }
    var dropped := Dropped(path, names);
    assert "$" + "." == "$.";
    assert forall i :: 0 <= i < |names| ==>
             dropped[i] == (if path == "" then "$." else path + ".") + names[i] + " is no longer required";
    hide Dropped;
    if line in dropped {
      var i :| 0 <= i < |dropped| && dropped[i] == line;
      assert names[i] in names;
    }
    if n :| n in b.required && n !in c.required
            && line == (if path == "" then "$." else path + ".") + n + " is no longer required" {
      var i :| 0 <= i < |names| && names[i] == n;
      assert dropped[i] == line;
    }
  }

  lemma {:induction false} FieldLines(text: Signature -> string, path: string, b: Schema, c: Schema, n: nat, line: string)
    requires n <= |b.properties|
    ensures line in FieldErrors(text, path, b, c, n)
            <==> exists i :: 0 <= i < n && FindsIn(text, path, b.properties[i], c.properties, line, b)
    decreases b, 0, n
  {
    hide OneFieldErrors, FindsIn;
    if n > 0 {
      FieldLines(text, path, b, c, n - 1, line);
      OneFieldLines(text, path, b, c, n - 1, line);
    }
  }

  lemma {:induction false} OneFieldLines(text: Signature -> string, path: string, b: Schema, c: Schema, i: nat, line: string)
    requires i < |b.properties|
    ensures line in OneFieldErrors(text, path, b, c, i) <==> FindsIn(text, path, b.properties[i], c.properties, line, b)
    decreases b, 0, i, 0
  {
    hide ObjectErrors, Finds, TypeSignature, SameType;
    var f := b.properties[i];
    var g := Get(c.properties, f.name);
    if g.Some? {
      SignaturesMean(text, f.schema, g.value);
      ObjectLines(text, FieldPath(path, f.name), f.schema, g.value, line);
    }
  }

  lemma {:induction false} DefLines(text: Signature -> string, b: Schema, c: Schema, n: nat, line: string)
    requires n <= |b.defs|
    ensures line in DefErrors(text, b, c, n) <==> exists i :: 0 <= i < n && FindsInDef(text, b.defs[i], c, line)
  {
    hide OneDefErrors, FindsInDef;
    if n > 0 {
      DefLines(text, b, c, n - 1, line);
      OneDefLines(text, b.defs[n - 1], c, line);
    }
  }

  lemma OneDefLines(text: Signature -> string, f: Field, c: Schema, line: string)
    ensures line in OneDefErrors(text, f, c) <==> FindsInDef(text, f, c, line)
  {
    hide ObjectErrors, Finds;
    var g := Get(c.defs, f.name);
    if g.Some? {
      ObjectLines(text, "$defs." + f.name, f.schema, g.value, line);
    }
  }

  /** Between schemas of one version the report holds exactly the lines that are found, at any
      depth; between different versions it holds none. */
  lemma ReportIsExact(text: Signature -> string, b: Schema, c: Schema, line: string)
    ensures line in Errors(text, b, c)
            <==> && SchemaVersion(b) == SchemaVersion(c)
                 && (Finds(text, "", b, c, line) || exists f :: f in b.defs && FindsInDef(text, f, c, line))
  {
    hide ObjectErrors, DefErrors, Finds, FindsInDef, SchemaVersion;
    ObjectLines(text, "", b, c, line);
    DefLines(text, b, c, |b.defs|, line);
    assert forall f :: f in b.defs <==> exists i :: 0 <= i < |b.defs| && b.defs[i] == f;
  }

  /** A property that changes its reference, or without references its type, is reported. */
  lemma ChangedTypeIsReported(text: Signature -> string, b: Schema, c: Schema, f: Field, g: Schema)
    requires SchemaVersion(b) == SchemaVersion(c) && f in b.properties && Get(c.properties, f.name) == Some(g)
    requires f.schema.reference != g.reference || (g.reference.None? && f.schema.typeName != g.typeName)
    ensures f.name + " changed type" in Errors(text, b, c)
  {
    ReportIsExact(text, b, c, f.name + " changed type");
    assert FindsIn(text, "", f, c.properties, f.name + " changed type", b);
  }

  /** The version is the constant of the property named schema_version, or else the one value it
      may take; a schema without that property has none. */
  lemma VersionIsRead(s: Schema, i: nat)
    requires DistinctNames(s.properties)
    ensures i < |s.properties| && s.properties[i].name == "schema_version" ==>
              var v := s.properties[i].schema;
              && (v.constant.Some? ==> SchemaVersion(s) == v.constant)
              && (v.constant.None? && |v.enumeration| == 1 ==> SchemaVersion(s) == Some(v.enumeration[0]))
              && (v.constant.None? && |v.enumeration| != 1 ==> SchemaVersion(s) == None)
    ensures (forall f :: f in s.properties ==> f.name != "schema_version") ==> SchemaVersion(s) == None
  {
    if i < |s.properties| && s.properties[i].name == "schema_version" {
      GetOwn(s.properties, i);
    }
  }

  lemma {:induction false} GetOwn(fields: seq<Field>, i: nat)
    requires DistinctNames(fields) && i < |fields|
    ensures Get(fields, fields[i].name) == Some(fields[i].schema)
  {
    if i > 0 {
      assert fields[0].name != fields[i].name;
      var rest := fields[1..];
      assert forall j :: 0 <= j < |rest| ==> rest[j] == fields[j + 1];
      GetOwn(rest, i - 1);
    }
  }

  lemma {:induction false} KeepsItself(text: Signature -> string, s: Schema)
    requires WellFormed(s)
    ensures Keeps(text, s, s)
    decreases s
  {
    forall f | f in s.properties
      ensures KeepsField(text, f, s.properties, s)
    {
      var i :| 0 <= i < |s.properties| && s.properties[i] == f;
      GetOwn(s.properties, i);
      KeepsItself(text, f.schema);
    }
  }

  /** A schema is compatible with itself. */
  lemma CompatibleWithItself(text: Signature -> string, s: Schema)
    requires WellFormed(s)
    ensures Errors(text, s, s) == []
  {
    KeepsItself(text, s);
    forall f | f in s.defs
      ensures KeepsDef(text, f, s)
    {
      var i :| 0 <= i < |s.defs| && s.defs[i] == f;
      GetOwn(s.defs, i);
      KeepsItself(text, f.schema);
    }
    NoErrorsMeansCompatible(text, s, s);
  }

  lemma {:induction false} KeepsIsTransitive(text: Signature -> string, a: Schema, b: Schema, c: Schema)
    requires Keeps(text, a, b) && Keeps(text, b, c)
    ensures Keeps(text, a, c)
    decreases a
  {
    forall f | f in a.properties
      ensures KeepsField(text, f, c.properties, a)
    {
      assert KeepsField(text, f, b.properties, a);
      var g := Field(f.name, Get(b.properties, f.name).value);
      assert KeepsField(text, g, c.properties, b);
      KeepsIsTransitive(text, f.schema, g.schema, Get(c.properties, f.name).value);
    }
  }

  /** Compatible changes within one version add up. */
  lemma CompatibilityIsTransitive(text: Signature -> string, a: Schema, b: Schema, c: Schema)
    requires SchemaVersion(a) == SchemaVersion(b) == SchemaVersion(c)
    requires Errors(text, a, b) == [] && Errors(text, b, c) == []
    ensures Errors(text, a, c) == []
  {
    hide Errors, Keeps;
    NoErrorsMeansCompatible(text, a, b);
    NoErrorsMeansCompatible(text, b, c);
    NoErrorsMeansCompatible(text, a, c);
    KeepsIsTransitive(text, a, b, c);
    forall f | f in a.defs
      ensures KeepsDef(text, f, c)
    {
      assert KeepsDef(text, f, b);
      var g := Field(f.name, Get(b.defs, f.name).value);
      assert KeepsDef(text, g, c);
      KeepsIsTransitive(text, f.schema, g.schema, Get(c.defs, f.name).value);
    }
  }
}
