/**
 * Stored documents: construction through a strict schema, object spread,
 * and the newest-first listing the admin views ask for.
 */
module Documents {
  import opened Js

  /** A strict schema: the paths it stores and the defaults it fills in. */
  datatype Schema = Schema(paths: set<string>, defaults: Record)

  predicate WellFormed(schema: Schema) {
    schema.defaults.Keys <= schema.paths
  }

  /** `new Model(fields)` under a strict schema: a path keeps the value it is
      given, an absent (or `undefined`) path takes its default, and anything
      outside the schema is dropped. */
  function Construct(fields: Record, schema: Schema): (doc: Record)
    requires WellFormed(schema)
    ensures doc.Keys <= schema.paths
    ensures forall k :: k in fields && fields[k] != Undefined && k in schema.paths ==> k in doc && doc[k] == fields[k]
    ensures forall k :: k in schema.defaults && Field(fields, k) == Undefined ==> k in doc && doc[k] == schema.defaults[k]
    ensures forall k :: k in doc ==> Field(fields, k) != Undefined || k in schema.defaults
  {
    map k | k in schema.paths && ((k in fields && fields[k] != Undefined) || k in schema.defaults) ::
      if k in fields && fields[k] != Undefined then fields[k] else schema.defaults[k]
  }

  /** The own properties `{...v}` copies.  Only objects contribute here:
      `null`, `undefined`, numbers and booleans spread nothing.  Every
      property read on the copy agrees with the same read on `v`. */
  function Spread(v: Value): (r: Record)
    ensures forall k :: Field(r, k) == Prop(v, k)
    ensures Nullish(v) ==> r == map[]
  {
    if v.Obj? then v.props else map[]
  }

  // ---------------------------------------------------------------------
  // `find().sort({ created_at: -1 })`

  /** The creation time of a document, in milliseconds. */
  function CreatedAt(r: Record): int {
    NumberOr0(Field(r, "created_at"))
  }

  predicate NewestFirstOrder(rs: seq<Record>) {
    forall i, j :: 0 <= i < j < |rs| ==> CreatedAt(rs[i]) >= CreatedAt(rs[j])
  }

  /** One insertion step: `r` goes in front of the first document that is
      not newer than it. */
  function InsertByAge(r: Record, rs: seq<Record>): (out: seq<Record>)
    ensures |out| == |rs| + 1
    decreases |rs|
  {
    if rs == [] || CreatedAt(r) >= CreatedAt(rs[0]) then [r] + rs
    else [rs[0]] + InsertByAge(r, rs[1..])
  }

  /** Inserting into a newest-first sequence keeps it newest first. */
  lemma {:induction false} InsertByAgeSorted(r: Record, rs: seq<Record>)
    requires NewestFirstOrder(rs)
    ensures NewestFirstOrder(InsertByAge(r, rs))
    ensures InsertByAge(r, rs)[0] == r || (rs != [] && InsertByAge(r, rs)[0] == rs[0])
    decreases |rs|
  {
    if rs == [] || CreatedAt(r) >= CreatedAt(rs[0]) {
      PrependNewest(r, rs);
    } else {
      NewestFirstTail(rs);
      InsertByAgeSorted(r, rs[1..]);
      assert rs[1..] != [] ==> CreatedAt(rs[0]) >= CreatedAt(rs[1..][0]);
      PrependNewest(rs[0], InsertByAge(r, rs[1..]));
    }
  }

  /** Insertion adds exactly `r`. */
  lemma {:induction false} InsertByAgePermutes(r: Record, rs: seq<Record>)
    ensures multiset(InsertByAge(r, rs)) == multiset(rs) + multiset{r}
    decreases |rs|
  {
    if rs != [] && CreatedAt(r) < CreatedAt(rs[0]) {
      InsertByAgePermutes(r, rs[1..]);
      assert rs == [rs[0]] + rs[1..];
    }
  }

  lemma NewestFirstTail(rs: seq<Record>)
    requires rs != [] && NewestFirstOrder(rs)
    ensures NewestFirstOrder(rs[1..])
  {
    forall i, j | 0 <= i < j < |rs| - 1
      ensures CreatedAt(rs[1..][i]) >= CreatedAt(rs[1..][j])
    {
      assert rs[1..][i] == rs[i + 1] && rs[1..][j] == rs[j + 1];
    }
  }

  lemma PrependNewest(r: Record, rs: seq<Record>)
    requires NewestFirstOrder(rs)
    requires rs != [] ==> CreatedAt(r) >= CreatedAt(rs[0])
    ensures NewestFirstOrder([r] + rs)
  {
    var out := [r] + rs;
    forall i, j | 0 <= i < j < |out|
      ensures CreatedAt(out[i]) >= CreatedAt(out[j])
    {
      assert out[j] == rs[j - 1];
      if i > 0 {
        assert out[i] == rs[i - 1];
      } else if j > 1 {
        assert CreatedAt(rs[0]) >= CreatedAt(rs[j - 1]);
      }
    }
  }

  /** The whole collection, newest first: a reordering of the stored
      documents with creation times descending. */
  function NewestFirst(rs: seq<Record>): (out: seq<Record>)
    ensures NewestFirstOrder(out)
    ensures multiset(out) == multiset(rs)
    decreases |rs|
  {
    if rs == [] then []
    else
      assert rs == [rs[0]] + rs[1..];
      InsertByAgeSorted(rs[0], NewestFirst(rs[1..]));
      InsertByAgePermutes(rs[0], NewestFirst(rs[1..]));
      InsertByAge(rs[0], NewestFirst(rs[1..]))
  }
}
