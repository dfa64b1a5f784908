/** Helm chart values: the deep merge of several sources, and the JSON form in which a HelmChart stores them. */
module Values {
  import opened Wrappers

  type Fields = map<string, Value>

  /** A decoded value. YAML decoding yields `Int` for whole numbers, JSON decoding only ever yields `Float`. */
  datatype Value =
    | Null
    | Bool(b: bool)
    | Int(n: int)
    | Float(r: real)
    | Str(s: string)
    | List(elems: seq<Value>)
    | Obj(fields: Fields)

  /** JSON text, up to layout: one kind of number. */
  datatype Json =
    | JNull
    | JBool(b: bool)
    | JNum(r: real)
    | JStr(s: string)
    | JArr(elems: seq<Json>)
    | JObj(members: map<string, Json>)

  // ---------------------------------------------------------------- merge

  /** The deep merge of `b` into `a`, `b` taking precedence. */
  function Merge(a: Fields, b: Fields): Fields
    decreases Obj(b)
  {
    map k | k in a.Keys + b.Keys ::
      if k !in b then a[k]
      else if k in a && a[k].Obj? && b[k].Obj? then Obj(Merge(a[k].fields, b[k].fields))
      else b[k]
  }

  /** Recursive merge that copies `m1` and then visits the entries of `m2` in an arbitrary order. */
  method MergeMaps(m1: Fields, m2: Fields) returns (out: Fields)
    ensures out == Merge(m1, m2)
    decreases Obj(m2)
  {
    out := m1;
    var todo := m2.Keys;
    while todo != {}
      invariant todo <= m2.Keys
      invariant out.Keys == m1.Keys + (m2.Keys - todo)
      invariant forall k | k in out :: out[k] == if k in todo then m1[k] else Merge(m1, m2)[k]
      decreases todo
    {
      var k :| k in todo;
      todo := todo - {k};
      if m2[k].Obj? && k in out && out[k].Obj? {
        var inner := MergeMaps(out[k].fields, m2[k].fields);
        out := out[k := Obj(inner)];
      } else {
        out := out[k := m2[k]];
      }
    }
  }

  function MergeAll(sources: seq<Fields>): Fields {
    if sources == [] then map[]
    else Merge(MergeAll(sources[..|sources| - 1]), sources[|sources| - 1])
  }

  /** One argument of MergeHelmValues, already parsed. `Malformed` stands for text that does not parse and for an
      argument of an unsupported type. */
  datatype Source = NoSource | Yaml(doc: Value) | FieldMap(fields: Fields) | RawJson(json: Json) | Malformed

  function ToValuesMap(source: Source): Result<Fields, Error> {
    match source
    case NoSource => Ok(map[])
    case FieldMap(f) => Ok(f)
    case Yaml(doc) => if doc.Obj? then Ok(doc.fields) else if doc.Null? then Ok(map[]) else Err(InvalidInput)
    case RawJson(json) => JsonFields(json)
    case Malformed => Err(InvalidInput)
  }

  /** Unmarshalling JSON into a map: only an object or null is accepted. */
  function JsonFields(doc: Json): Result<Fields, Error> {
    match doc
    case JObj(members) => Ok(DecodeFields(members))
    case JNull => Ok(map[])
    case _ => Err(InvalidInput)
  }

  predicate AllDecode(sources: seq<Source>) {
    forall i | 0 <= i < |sources| :: ToValuesMap(sources[i]).Ok?
  }

  function Decoded(sources: seq<Source>): (r: seq<Fields>)
    requires AllDecode(sources)
  {
    seq(|sources|, i requires 0 <= i < |sources| => ToValuesMap(sources[i]).value)
  }

  /** What merging the sources means: nothing when there are no values, an error when a source does not decode. */
  function MergeSources(sources: seq<Source>): Result<Option<Fields>, Error> {
    if !AllDecode(sources) then Err(InvalidInput)
    else if MergeAll(Decoded(sources)) == map[] then Ok(None)
    else Ok(Some(MergeAll(Decoded(sources))))
  }

  method MergeHelmValues(sources: seq<Source>) returns (r: Result<Option<Fields>, Error>)
    ensures r == MergeSources(sources)
  {
    var merged: Fields := map[];
    for i := 0 to |sources|
      invariant AllDecode(sources[..i])
      invariant merged == MergeAll(Decoded(sources[..i]))
    {
      var m := ToValuesMap(sources[i]);
      if m.Err? {
        return Err(InvalidInput);
      }
      assert Decoded(sources[..i + 1])[..i] == Decoded(sources[..i]);
      merged := MergeMaps(merged, m.value);
    }
    assert sources[..|sources|] == sources;
    return if |merged| == 0 then Ok(None) else Ok(Some(merged));
  }

  /** The source is no map: text that does not parse, or a document or JSON value other than a map and null. */
  predicate Undecodable(s: Source) {
    || s.Malformed?
    || (s.Yaml? && !s.doc.Obj? && !s.doc.Null?)
    || (s.RawJson? && !s.json.JObj? && !s.json.JNull?)
  }

  /** Maps are themselves, an absent source and null are empty, and anything else does not decode; the merge of several
      sources fails exactly when one of them does not. */
  lemma SourcesExact(sources: seq<Source>, s: Source)
    ensures ToValuesMap(s).Err? <==> Undecodable(s)
    ensures s.NoSource? || s == Yaml(Null) || s == RawJson(JNull) ==> ToValuesMap(s) == Ok(map[])
    ensures s.FieldMap? ==> ToValuesMap(s) == Ok(s.fields)
    ensures s.Yaml? && s.doc.Obj? ==> ToValuesMap(s) == Ok(s.doc.fields)
    ensures s.RawJson? && s.json.JObj? ==> ToValuesMap(s) == Ok(Decode(s.json).fields)
    ensures MergeSources(sources).Err? <==> exists i :: 0 <= i < |sources| && Undecodable(sources[i])
  {
    forall i | 0 <= i < |sources| ensures ToValuesMap(sources[i]).Err? <==> Undecodable(sources[i]) {
    }
  }

  // ---------------------------------------------------------------- meaning of the merge, by key path

  /** The value at key path `p`, every step but the last going through a map. */
  function At(m: Fields, p: seq<string>): Option<Value>
    requires p != []
    decreases |p|
  {
    if p[0] !in m then None
    else if |p| == 1 then Some(m[p[0]])
    else if m[p[0]].Obj? then At(m[p[0]].fields, p[1..])
    else None
  }

  /** `m` decides what is at `p`: it has a value there, or cuts the path off with a non-map above it. */
  ghost predicate Blocks(m: Fields, p: seq<string>)
    requires p != []
  {
    || At(m, p).Some?
    || exists n | 0 < n < |p| :: At(m, p[..n]).Some? && !At(m, p[..n]).value.Obj?
  }

  lemma BlocksStep(m: Fields, p: seq<string>)
    requires |p| > 1
    ensures Blocks(m, p) <==> p[0] in m && (m[p[0]].Obj? ==> Blocks(m[p[0]].fields, p[1..]))
  {
    if p[0] in m && m[p[0]].Obj? {
      forall n | 0 < n < |p| - 1
        ensures At(m, p[..n + 1]) == At(m[p[0]].fields, p[1..][..n])
      {
        assert p[..n + 1][1..] == p[1..][..n];
      }
      if Blocks(m, p) && At(m, p).None? {
        var n :| 0 < n < |p| && At(m, p[..n]).Some? && !At(m, p[..n]).value.Obj?;
        assert p[..n][0] == p[0];
        assert At(m, p[..(n - 1) + 1]) == At(m[p[0]].fields, p[1..][..n - 1]);
      }
      if Blocks(m[p[0]].fields, p[1..]) && At(m, p).None? {
        var n :| 0 < n < |p| - 1 && At(m[p[0]].fields, p[1..][..n]).Some?
                     && !At(m[p[0]].fields, p[1..][..n]).value.Obj?;
        assert At(m, p[..n + 1]) == At(m[p[0]].fields, p[1..][..n]);
      }
    } else if p[0] in m {
      assert At(m, p[..1]) == Some(m[p[0]]);
    } else {
      forall n | 0 < n < |p| ensures At(m, p[..n]).None? {
        assert p[..n][0] == p[0];
      }
    }
  }

  /** At every path the merge shows `b` where `b` decides, both maps merged where both have one, and `a` elsewhere. */
  lemma {:induction false} MergeAt(a: Fields, b: Fields, p: seq<string>)
    requires p != []
    ensures At(Merge(a, b), p) ==
            if !Blocks(b, p) then At(a, p)
            else if At(a, p).Some? && At(b, p).Some? && At(a, p).value.Obj? && At(b, p).value.Obj?
            then Some(Obj(Merge(At(a, p).value.fields, At(b, p).value.fields)))
            else At(b, p)
    decreases |p|
  {
    var k := p[0];
    if |p| > 1 {
      BlocksStep(b, p);
      if k in a && k in b && a[k].Obj? && b[k].Obj? {
        MergeAt(a[k].fields, b[k].fields, p[1..]);
      }
    }
  }

  /** Source `i` has the non-map value `w` at `p` and no later source decides `p`. */
  ghost predicate Wins(sources: seq<Fields>, p: seq<string>, w: Value, i: int)
    requires p != []
  {
    && 0 <= i < |sources|
    && At(sources[i], p) == Some(w)
    && forall j | i < j < |sources| :: !Blocks(sources[j], p)
  }

  /** A non-map value is in the merge of all sources exactly when one source wins with it, and that source is unique. */
  lemma {:induction false} MergeAllLeaf(sources: seq<Fields>, p: seq<string>, w: Value)
    requires p != [] && !w.Obj?
    ensures At(MergeAll(sources), p) == Some(w) <==> exists i :: Wins(sources, p, w, i)
    ensures forall i, j, v | Wins(sources, p, w, i) && Wins(sources, p, v, j) :: i == j && v == w
    decreases |sources|
  {
    if sources != [] {
      var last := |sources| - 1;
      var init, b := sources[..last], sources[last];
      MergeAllLeaf(init, p, w);
      MergeAt(MergeAll(init), b, p);
      if exists i :: Wins(sources, p, w, i) {
        var i :| Wins(sources, p, w, i);
        if i < last {
          assert Wins(init, p, w, i);
        }
      }
      if !Blocks(b, p) && exists i :: Wins(init, p, w, i) {
        var i :| Wins(init, p, w, i);
        assert Wins(sources, p, w, i);
      }
      if At(b, p) == Some(w) {
        assert Wins(sources, p, w, last);
      }
    }
  }

  // ---------------------------------------------------------------- algebra of the merge

  /** Every key of `x` is also in `y`, down to the places where either stops being a map. */
  predicate Covered(x: Fields, y: Fields)
    decreases Obj(x)
  {
    forall k | k in x :: k in y && (x[k].Obj? && y[k].Obj? ==> Covered(x[k].fields, y[k].fields))
  }

  /** Merging `y` over `x` gives just `y` exactly when `x` has no key of its own. */
  lemma {:induction false} MergeAbsorbs(x: Fields, y: Fields)
    ensures Merge(x, y) == y <==> Covered(x, y)
    decreases Obj(x)
  {
    forall k | k in x && k in y && x[k].Obj? && y[k].Obj?
      ensures Merge(x[k].fields, y[k].fields) == y[k].fields <==> Covered(x[k].fields, y[k].fields)
    {
      MergeAbsorbs(x[k].fields, y[k].fields);
    }
    if Merge(x, y) == y {
      forall k | k in x ensures k in y && (x[k].Obj? && y[k].Obj? ==> Covered(x[k].fields, y[k].fields)) {
        assert k in Merge(x, y);
      }
    }
    if Covered(x, y) {
      assert Merge(x, y).Keys == y.Keys;
      forall k | k in y ensures Merge(x, y)[k] == y[k] {
      }
    }
  }

  /** The empty map is the identity, merging is idempotent, and merging the same source twice changes nothing. */
  lemma {:induction false} MergeLaws(a: Fields, b: Fields)
    ensures Merge(map[], b) == b && Merge(a, map[]) == a
    ensures Merge(a, a) == a
    ensures Merge(Merge(a, b), b) == Merge(a, b)
    decreases Obj(a), Obj(b)
  {
    SelfCovered(a);
    MergeAbsorbs(a, a);
    MergeTwice(a, b);
  }

  lemma {:induction false} SelfCovered(a: Fields)
    ensures Covered(a, a)
    decreases Obj(a)
  {
    forall k | k in a && a[k].Obj? ensures Covered(a[k].fields, a[k].fields) {
      SelfCovered(a[k].fields);
    }
  }

  lemma {:induction false} MergeTwice(a: Fields, b: Fields)
    ensures Merge(Merge(a, b), b) == Merge(a, b)
    decreases Obj(b)
  {
    forall k | k in b && b[k].Obj?
      ensures k in a && a[k].Obj? ==>
                Merge(Merge(a[k].fields, b[k].fields), b[k].fields) == Merge(a[k].fields, b[k].fields)
      ensures Merge(b[k].fields, b[k].fields) == b[k].fields
    {
      SelfCovered(b[k].fields);
      MergeAbsorbs(b[k].fields, b[k].fields);
      if k in a && a[k].Obj? {
        MergeTwice(a[k].fields, b[k].fields);
      }
    }
    assert forall k | k in Merge(a, b) :: Merge(Merge(a, b), b)[k] == Merge(a, b)[k];
  }

  /** Wherever `b` has a non-map between a map of `a` and a map of `c`, the map of `a` has no key of its own. */
  predicate NoReopening(a: Fields, b: Fields, c: Fields)
    decreases Obj(a), 1
  {
    forall k | k in a :: NoReopeningAt(a, b, c, k)
  }

  predicate NoReopeningAt(a: Fields, b: Fields, c: Fields, k: string)
    requires k in a
    decreases Obj(a), 0
  {
    k in b && k in c && a[k].Obj? && c[k].Obj? ==>
      if b[k].Obj? then NoReopening(a[k].fields, b[k].fields, c[k].fields)
      else Covered(a[k].fields, c[k].fields)
  }

  /** Grouping does not matter exactly when no non-map of the middle source cuts off keys of the first one that
      the third source would have kept. */
  lemma {:induction false} MergeAssociativeIff(a: Fields, b: Fields, c: Fields)
    ensures Merge(Merge(a, b), c) == Merge(a, Merge(b, c)) <==> NoReopening(a, b, c)
    decreases Obj(a), 1
  {
    var l, r := Merge(Merge(a, b), c), Merge(a, Merge(b, c));
    assert l.Keys == r.Keys == a.Keys + b.Keys + c.Keys;
    forall k | k in l ensures l[k] == r[k] <==> (k in a ==> NoReopeningAt(a, b, c, k)) {
      AssociativeAt(a, b, c, k);
    }
    if l == r {
      forall k | k in a ensures NoReopeningAt(a, b, c, k) {
        assert k in l;
      }
    }
  }

  lemma {:induction false} AssociativeAt(a: Fields, b: Fields, c: Fields, k: string)
    requires k in a || k in b || k in c
    ensures Merge(Merge(a, b), c)[k] == Merge(a, Merge(b, c))[k] <==> (k in a ==> NoReopeningAt(a, b, c, k))
    decreases Obj(a), 0
  {
    var ab, bc := Merge(a, b), Merge(b, c);
    if k in a && k in b && k in c && a[k].Obj? && c[k].Obj? {
      if b[k].Obj? {
        MergeAssociativeIff(a[k].fields, b[k].fields, c[k].fields);
      } else {
        MergeAbsorbs(a[k].fields, c[k].fields);
      }
    } else if k !in c {
      assert Merge(ab, c)[k] == ab[k];
    } else if !c[k].Obj? {
      assert bc[k] == c[k];
    }
  }

  /** The merge is not associative: a scalar in the middle source cuts off the first source's map. */
  lemma MergeNotAssociative() returns (a: Fields, b: Fields, c: Fields)
    ensures Merge(Merge(a, b), c) != Merge(a, Merge(b, c))
  {
    var tag: Fields := map["tag" := Str("1")];
    a, b, c := map["image" := Obj(tag)], map["image" := Null], map["image" := Obj(map[])];
    assert "image" in a && "tag" in tag;
    assert !NoReopeningAt(a, b, c, "image");
    MergeAssociativeIff(a, b, c);
  }

  // ---------------------------------------------------------------- JSON

  function Encode(v: Value): Json {
    match v
    case Null => JNull
    case Bool(b) => JBool(b)
    case Int(n) => JNum(n as real)
    case Float(r) => JNum(r)
    case Str(s) => JStr(s)
    case List(es) => JArr(seq(|es|, i requires 0 <= i < |es| => Encode(es[i])))
    case Obj(f) => JObj(map k | k in f :: Encode(f[k]))
  }

  function Decode(j: Json): Value {
    match j
    case JNull => Null
    case JBool(b) => Bool(b)
    case JNum(r) => Float(r)
    case JStr(s) => Str(s)
    case JArr(es) => List(seq(|es|, i requires 0 <= i < |es| => Decode(es[i])))
    case JObj(m) => Obj(map k | k in m :: Decode(m[k]))
  }

  function EncodeFields(f: Fields): Json {
    Encode(Obj(f))
  }

  function DecodeFields(m: map<string, Json>): Fields {
    Decode(JObj(m)).fields
  }

  /** No number is an `Int`, at any depth. */
  predicate JsonNormal(v: Value) {
    match v
    case Int(_) => false
    case List(es) => forall i | 0 <= i < |es| :: JsonNormal(es[i])
    case Obj(f) => forall k | k in f :: JsonNormal(f[k])
    case _ => true
  }

  /** A value survives being written as JSON and read back exactly when it is JSON-normal. */
  lemma {:induction false} JsonRoundTripIff(v: Value)
    ensures Decode(Encode(v)) == v <==> JsonNormal(v)
  {
    match v
    case List(es) =>
      forall i | 0 <= i < |es| ensures Decode(Encode(es[i])) == es[i] <==> JsonNormal(es[i]) {
        JsonRoundTripIff(es[i]);
      }
      if Decode(Encode(v)) == v {
        forall i | 0 <= i < |es| ensures JsonNormal(es[i]) {
          assert Decode(Encode(v)).elems[i] == Decode(Encode(es[i]));
        }
      }
    case Obj(f) =>
      forall k | k in f ensures Decode(Encode(f[k])) == f[k] <==> JsonNormal(f[k]) {
        JsonRoundTripIff(f[k]);
      }
      if Decode(Encode(v)) == v {
        forall k | k in f ensures JsonNormal(f[k]) {
          assert Decode(Encode(v)).fields[k] == Decode(Encode(f[k]));
        }
      }
      if JsonNormal(v) {
        assert Decode(Encode(v)).fields == f;
      }
    case _ =>
  }

  /** What `f` becomes when it is stored as JSON and read back. */
  function ReadBack(f: Fields): Fields {
    Decode(Encode(Obj(f))).fields
  }

  /** Values read from JSON are JSON-normal. */
  lemma {:induction false} DecodedIsNormal(j: Json)
    ensures JsonNormal(Decode(j))
  {
    match j
    case JArr(es) => forall i | 0 <= i < |es| ensures JsonNormal(Decode(es[i])) { DecodedIsNormal(es[i]); }
    case JObj(m) => forall k | k in m ensures JsonNormal(Decode(m[k])) { DecodedIsNormal(m[k]); }
    case _ =>
  }

  /** Storing what was read back gives the same JSON. */
  lemma {:induction false} EncodeReadBack(v: Value)
    ensures Encode(Decode(Encode(v))) == Encode(v)
  {
    match v
    case List(es) => forall i | 0 <= i < |es| ensures Encode(Decode(Encode(es[i]))) == Encode(es[i]) {
      EncodeReadBack(es[i]);
    }
    case Obj(f) =>
      forall k | k in f ensures Encode(Decode(Encode(f[k]))) == Encode(f[k]) {
        EncodeReadBack(f[k]);
      }
      assert Encode(Decode(Encode(v))).members == Encode(v).members;
    case _ =>
  }

  lemma ReadBackTwice(f: Fields)
    ensures ReadBack(ReadBack(f)) == ReadBack(f) && JsonNormal(Obj(ReadBack(f)))
    ensures EncodeFields(ReadBack(f)) == EncodeFields(f)
  {
    EncodeReadBack(Obj(f));
    DecodedIsNormal(Encode(Obj(f)));
  }

  lemma ReadBackAt(f: Fields)
    ensures ReadBack(f).Keys == f.Keys && forall k | k in f :: ReadBack(f)[k] == Decode(Encode(f[k]))
  {
  }

  lemma ReadBackKind(v: Value)
    ensures Decode(Encode(v)).Obj? <==> v.Obj?
    ensures v.Obj? ==> Decode(Encode(v)) == Obj(ReadBack(v.fields))
  {
  }

  /** Merging and reading back from JSON can be exchanged. */
  lemma {:induction false} MergeReadBack(a: Fields, b: Fields)
    ensures ReadBack(Merge(a, b)) == Merge(ReadBack(a), ReadBack(b))
    decreases Obj(b), 1
  {
    ReadBackAt(a);
    ReadBackAt(b);
    ReadBackAt(Merge(a, b));
    forall k | k in a.Keys + b.Keys ensures ReadBack(Merge(a, b))[k] == Merge(ReadBack(a), ReadBack(b))[k] {
      MergeReadBackAt(a, b, k);
    }
    assert ReadBack(Merge(a, b)).Keys == Merge(ReadBack(a), ReadBack(b)).Keys;
  }

  lemma {:induction false} MergeReadBackAt(a: Fields, b: Fields, k: string)
    requires k in a || k in b
    ensures k in Merge(ReadBack(a), ReadBack(b)) && k in Merge(a, b)
    ensures Merge(ReadBack(a), ReadBack(b))[k] == Decode(Encode(Merge(a, b)[k]))
    decreases Obj(b), 0
  {
    ReadBackAt(a);
    ReadBackAt(b);
    if k in a {
      ReadBackKind(a[k]);
    }
    if k in b {
      ReadBackKind(b[k]);
      if k in a && a[k].Obj? && b[k].Obj? {
        MergeReadBack(a[k].fields, b[k].fields);
        ReadBackKind(Obj(Merge(a[k].fields, b[k].fields)));
        assert Merge(a, b)[k] == Obj(Merge(a[k].fields, b[k].fields));
      }
    }
  }
}
