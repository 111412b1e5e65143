/** Argument shapes: a small description language for what a validator checks
    (which members are required, which are optional, and of what type), with
    the generic facts every validator inherits from it. */
module ArgShapes {
  import opened Wrappers
  import opened JsonValues

  /** The type a member is checked against. `ObjectKind` is
      `typeof v === "object" && v !== null`, which arrays also pass. */
  datatype Kind =
    | StringKind
    | NumberKind
    | BooleanKind
    | StringArrayKind
    | ObjectKind
    | ObjectOf(fields: seq<Field>)

  /** A checked member: absent is allowed unless `required`; present must conform to `kind`. */
  datatype Field = Field(name: string, kind: Kind, required: bool)

  predicate IsObject(v: Json)
  {
    v.Obj? || v.Arr?
  }

  predicate Conforms(v: Json, k: Kind)
    decreases k, 0
  {
    match k
    case StringKind => v.Str?
    case NumberKind => v.Num?
    case BooleanKind => v.Bool?
    case StringArrayKind => v.Arr? && forall x :: x in v.items ==> x.Str?
    case ObjectKind => IsObject(v)
    case ObjectOf(fields) =>
      IsObject(v) &&
      forall f :: f in fields ==> MemberConforms(v, f)
  }

  predicate MemberConforms(v: Json, f: Field)
    decreases f, 1
  {
    match Get(v, f.name)
    case None => !f.required
    case Some(m) => Conforms(m, f.kind)
  }

  function Names(fields: seq<Field>): set<string>
  {
    set f | f in fields :: f.name
  }

  /** Every value of kind `strong` is a value of kind `weak`. */
  predicate Subsumes(strong: Kind, weak: Kind)
    decreases strong, weak
  {
    match weak
    case ObjectOf(weakFields) =>
      strong.ObjectOf? &&
      forall f :: f in weakFields ==>
        exists g :: g in strong.fields && g.name == f.name && (f.required ==> g.required) && Subsumes(g.kind, f.kind)
    case ObjectKind => strong.ObjectKind? || strong.ObjectOf? || strong.StringArrayKind?
    case _ => strong == weak
  }

  /** Members a shape does not mention never change the verdict: unknown
      fields are accepted, whatever their value. */
  lemma UnknownMemberIgnored(fields: seq<Field>, members: map<string, Json>, key: string, value: Json)
    requires key !in Names(fields)
    ensures Conforms(Obj(members[key := value]), ObjectOf(fields)) == Conforms(Obj(members), ObjectOf(fields))
  {
    forall f | f in fields
      ensures Get(Obj(members[key := value]), f.name) == Get(Obj(members), f.name)
    {
      assert f.name in Names(fields);
    }
  }

  /** Optional members are checked only when present: dropping one keeps a
      conforming object conforming. */
  lemma OptionalMemberRemovable(fields: seq<Field>, members: map<string, Json>, key: string)
    requires forall f :: f in fields && f.name == key ==> !f.required
    requires Conforms(Obj(members), ObjectOf(fields))
    ensures Conforms(Obj(members - {key}), ObjectOf(fields))
  {
    forall f | f in fields
      ensures f.name != key ==> Get(Obj(members - {key}), f.name) == Get(Obj(members), f.name)
    {
    }
  }

  /** A present member of the wrong type is rejected. */
  lemma IllTypedMemberRejected(fields: seq<Field>, v: Json, f: Field)
    requires f in fields && Get(v, f.name).Some? && !Conforms(Get(v, f.name).value, f.kind)
    ensures !Conforms(v, ObjectOf(fields))
  {
  }

  /** Checking the members of `a + b` is checking those of `a` and then those of `b`. */
  lemma ConformsAppend(v: Json, a: seq<Field>, b: seq<Field>)
    ensures Conforms(v, ObjectOf(a + b)) <==> Conforms(v, ObjectOf(a)) && Conforms(v, ObjectOf(b))
  {
    if Conforms(v, ObjectOf(a)) && Conforms(v, ObjectOf(b)) {
      forall f | f in a + b
        ensures MemberConforms(v, f)
      {
        if f !in a {
          assert f in b;
        }
      }
    }
  }

  /** A stronger shape implies a weaker one. */
  lemma {:induction false} ConformsWeaken(v: Json, strong: Kind, weak: Kind)
    requires Conforms(v, strong) && Subsumes(strong, weak)
    ensures Conforms(v, weak)
    decreases strong, weak
  {
    match weak
    case ObjectOf(weakFields) =>
      forall f | f in weakFields
        ensures (Get(v, f.name).None? ==> !f.required) &&
                (Get(v, f.name).Some? ==> Conforms(Get(v, f.name).value, f.kind))
      {
        var g :| g in strong.fields && g.name == f.name && (f.required ==> g.required) && Subsumes(g.kind, f.kind);
        if Get(v, f.name).Some? {
          ConformsWeaken(Get(v, f.name).value, g.kind, f.kind);
        }
      }
    case _ =>
  }
}
