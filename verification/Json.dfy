/** JSON values as Go's `encoding/json` decodes them into `any`, and the
    "everything in want survives in got" order the message restorer uses. */
module Json {

  datatype Json =
    | Null
    | Bool(b: bool)
    | Num(n: real)
    | Str(s: string)
    | Arr(elems: seq<Json>)
    | Obj(fields: map<string, Json>)

  /** `valueSubset`: scalars must agree, arrays must pair up position by position, and an
      object may only have grown new keys. */
  predicate ValueSubset(want: Json, got: Json)
    decreases want
  {
    match want
    case Obj(w) =>
      got.Obj? && forall k :: k in w ==> k in got.fields && ValueSubset(w[k], got.fields[k])
    case Arr(w) =>
      got.Arr? && |got.elems| == |w| && forall i :: 0 <= i < |w| ==> ValueSubset(w[i], got.elems[i])
    case _ => want == got
  }

  // ---------------------------------------------------------------------
  // What the order means: read a value as the set of its addressable parts.

  datatype Selector = Key(k: string) | Index(i: nat)

  /** What is visible at one address without looking below it. */
  datatype Shape = Scalar(v: Json) | ArrayOf(len: nat) | Object | Missing

  function At(j: Json, path: seq<Selector>): (s: Shape)
    decreases path
  {
    if path == [] then
      match j
      case Obj(_) => Object
      case Arr(es) => ArrayOf(|es|)
      case _ => Scalar(j)
    else
      match (j, path[0])
      case (Obj(f), Key(k)) => if k in f then At(f[k], path[1..]) else Missing
      case (Arr(es), Index(i)) => if i < |es| then At(es[i], path[1..]) else Missing
      case _ => Missing
  }

  /** Every address of `want` shows the same thing in `got`. */
  ghost predicate Survives(want: Json, got: Json) {
    forall p :: At(want, p) != Missing ==> At(got, p) == At(want, p)
  }

  lemma {:induction false} SubsetKeepsPath(want: Json, got: Json, p: seq<Selector>)
    requires ValueSubset(want, got)
    requires At(want, p) != Missing
    ensures At(got, p) == At(want, p)
    decreases p
  {
    if p == [] {
    } else {
      match (want, p[0])
      case (Obj(f), Key(k)) => SubsetKeepsPath(f[k], got.fields[k], p[1..]);
      case (Arr(es), Index(i)) => SubsetKeepsPath(es[i], got.elems[i], p[1..]);
      case _ =>
    }
  }

  lemma {:induction false} SurvivorIsSubset(want: Json, got: Json)
    requires Survives(want, got)
    ensures ValueSubset(want, got)
    decreases want
  {
    assert At(got, []) == At(want, []);
    match want
    case Obj(w) =>
      forall k | k in w ensures k in got.fields && ValueSubset(w[k], got.fields[k]) {
        ChildSurvives(want, got, Key(k), w[k]);
        SurvivorIsSubset(w[k], got.fields[k]);
      }
    case Arr(w) =>
      forall i | 0 <= i < |w| ensures ValueSubset(w[i], got.elems[i]) {
        ChildSurvives(want, got, Index(i), w[i]);
        SurvivorIsSubset(w[i], got.elems[i]);
      }
    case _ =>
  }

  lemma ChildSurvives(want: Json, got: Json, s: Selector, child: Json)
    requires Survives(want, got)
    requires want.Obj? || want.Arr?
    requires want.Obj? ==> s.Key? && s.k in want.fields && child == want.fields[s.k]
    requires want.Arr? ==> s.Index? && s.i < |want.elems| && child == want.elems[s.i]
    ensures want.Obj? ==> got.Obj? && s.k in got.fields && Survives(child, got.fields[s.k])
    ensures want.Arr? ==> got.Arr? && s.i < |got.elems| && Survives(child, got.elems[s.i])
  {
    assert At(got, []) == At(want, []);
    assert At(child, []) != Missing && At(want, [s]) == At(child, []) by { assert [s][1..] == []; }
    assert At(got, [s]) == At(want, [s]);
    forall p | At(child, p) != Missing
      ensures want.Obj? ==> got.Obj? && s.k in got.fields && At(got.fields[s.k], p) == At(child, p)
      ensures want.Arr? ==> got.Arr? && s.i < |got.elems| && At(got.elems[s.i], p) == At(child, p)
    {
      assert ([s] + p)[1..] == p;
      assert At(want, [s] + p) == At(child, p);
      assert At(got, [s] + p) == At(want, [s] + p);
    }
  }

  /** `ValueSubset` holds exactly when nothing addressable in `want` is lost. */
  lemma SubsetIffNothingLost(want: Json, got: Json)
    ensures ValueSubset(want, got) <==> Survives(want, got)
  {
    if ValueSubset(want, got) {
      forall p | At(want, p) != Missing ensures At(got, p) == At(want, p) {
        SubsetKeepsPath(want, got, p);
      }
    }
    if Survives(want, got) { SurvivorIsSubset(want, got); }
  }

  // ---------------------------------------------------------------------
  // It is a partial order.

  lemma {:induction false} SubsetReflexive(j: Json)
    ensures ValueSubset(j, j)
    decreases j
  {
    match j
    case Obj(f) => forall k | k in f ensures ValueSubset(f[k], f[k]) { SubsetReflexive(f[k]); }
    case Arr(es) => forall i | 0 <= i < |es| ensures ValueSubset(es[i], es[i]) { SubsetReflexive(es[i]); }
    case _ =>
  }

  lemma SubsetTransitive(a: Json, b: Json, c: Json)
    requires ValueSubset(a, b) && ValueSubset(b, c)
    ensures ValueSubset(a, c)
  {
    SubsetIffNothingLost(a, b);
    SubsetIffNothingLost(b, c);
    SubsetIffNothingLost(a, c);
  }

  lemma {:induction false} SubsetAntisymmetric(a: Json, b: Json)
    requires ValueSubset(a, b) && ValueSubset(b, a)
    ensures a == b
    decreases a
  {
    match a
    case Obj(f) =>
      assert f.Keys == b.fields.Keys;
      forall k | k in f ensures f[k] == b.fields[k] { SubsetAntisymmetric(f[k], b.fields[k]); }
      assert f == b.fields;
    case Arr(es) =>
      forall i | 0 <= i < |es| ensures es[i] == b.elems[i] { SubsetAntisymmetric(es[i], b.elems[i]); }
      assert es == b.elems;
    case _ =>
  }
}
