/** The nested merge that keeps the checkpoint's JSON copy of the projections
    (event-sync-service.ts, `deepMergeJsonObjects`). */
module JsonMerge {
  import opened Basics

  /** A string: either 0x followed by that many hexadecimal digits, known by its numeric value (every
      reader of such strings ignores the case of the digits), or any other string. */
  datatype Text = Hex(digits: nat, value: nat) | Plain(chars: string)

  /** A JavaScript value as it occurs in decoded event arguments and in JSON columns. `Big` is a
      bigint, which exists in live arguments only: JSON has no such value. */
  datatype Js =
    | Null
    | Bool(b: bool)
    | Num(n: int)
    | Big(big: int)
    | Str(s: Text)
    | Arr(items: seq<Js>)
    | Obj(fields: map<Text, Js>)

  type Object = map<Text, Js>

  function MergeValue(base: Object, patch: Object, key: Text): Js
    requires key in base.Keys + patch.Keys
    decreases Obj(patch), 0
  {
    if key !in patch then base[key]
    else if key in base && base[key].Obj? && patch[key].Obj? then
      Obj(Merge(base[key].fields, patch[key].fields))
    else patch[key]
  }

  /** What one merge yields: patch keys win, except that two objects merge key by key. */
  function Merge(base: Object, patch: Object): Object
    decreases Obj(patch), 1
  {
    map k | k in base.Keys + patch.Keys :: MergeValue(base, patch, k)
  }

  /** The merge after the patch entries in `done`. */
  function PartialMerge(base: Object, patch: Object, done: set<Text>): Object
    requires done <= patch.Keys
  {
    map k | k in base.Keys + done :: if k in done then MergeValue(base, patch, k) else base[k]
  }

  lemma PartialMergeStep(base: Object, patch: Object, done: set<Text>, key: Text)
    requires done <= patch.Keys && key in patch && key !in done
    ensures PartialMerge(base, patch, done + {key}) ==
            PartialMerge(base, patch, done)[key := MergeValue(base, patch, key)]
    ensures key in PartialMerge(base, patch, done) <==> key in base
    ensures key in base ==> PartialMerge(base, patch, done)[key] == base[key]
  {
  }

  lemma PartialMergeEnds(base: Object, patch: Object)
    ensures PartialMerge(base, patch, {}) == base
    ensures PartialMerge(base, patch, patch.Keys) == Merge(base, patch)
  {
  }

  /** The loop over the patch's entries. */
  method DeepMergeJsonObjects(base: Object, patch: Object) returns (out: Object)
    ensures out == Merge(base, patch)
    decreases Obj(patch)
  {
    PartialMergeEnds(base, patch);
    out := base;
    var todo := patch.Keys;
    ghost var done := {};
    while todo != {}
      invariant done !! todo && done + todo == patch.Keys
      invariant out == PartialMerge(base, patch, done)
      decreases todo
    {
      var key :| key in todo;
      PartialMergeStep(base, patch, done, key);
      var value := patch[key];
      if key in out && out[key].Obj? && value.Obj? {
        var nested := DeepMergeJsonObjects(out[key].fields, value.fields);
        value := Obj(nested);
      }
      out := out[key := value];
      todo, done := todo - {key}, done + {key};
    }
    assert done == patch.Keys;
  }

  // ---------------------------------------------------------------- Laws

  lemma {:induction false} MergeSelf(a: Object)
    ensures Merge(a, a) == a
    decreases Obj(a)
  {
    forall k | k in a ensures MergeValue(a, a, k) == a[k] {
      if a[k].Obj? {
        MergeSelf(a[k].fields);
      }
    }
  }

  /** Delivering one patch twice is delivering it once. */
  lemma {:induction false} MergeIdempotent(a: Object, p: Object)
    ensures Merge(Merge(a, p), p) == Merge(a, p)
    decreases Obj(p)
  {
    var once := Merge(a, p);
    forall k | k in once.Keys ensures MergeValue(once, p, k) == once[k] {
      assert once[k] == MergeValue(a, p, k);
      if k in p && p[k].Obj? {
        if k in a && a[k].Obj? {
          MergeIdempotent(a[k].fields, p[k].fields);
        } else {
          MergeSelf(p[k].fields);
        }
      }
    }
  }

  function Lookup(v: Js, path: seq<Text>): Option<Js>
    decreases |path|
  {
    if path == [] then Some(v)
    else if v.Obj? && path[0] in v.fields then Lookup(v.fields[path[0]], path[1..])
    else None
  }

  /** The path parts from the patch at an object that lacks the next key. */
  predicate Avoids(patch: Object, path: seq<Text>)
    requires path != []
    decreases |path|
  {
    path[0] !in patch ||
    (|path| > 1 && patch[path[0]].Obj? && Avoids(patch[path[0]].fields, path[1..]))
  }

  /** Every lookup in a merged object, from lookups in its two inputs alone: paths the patch avoids
      read the base, all others read the patch, and where both hold an object its merge. */
  lemma {:induction false} MergeLookup(a: Object, p: Object, path: seq<Text>)
    requires path != []
    ensures Avoids(p, path) ==> Lookup(Obj(Merge(a, p)), path) == Lookup(Obj(a), path)
    ensures !Avoids(p, path) ==>
              var was, put := Lookup(Obj(a), path), Lookup(Obj(p), path);
              Lookup(Obj(Merge(a, p)), path) ==
              if was.Some? && was.value.Obj? && put.Some? && put.value.Obj?
              then Some(Obj(Merge(was.value.fields, put.value.fields)))
              else put
    decreases |path|
  {
    var k := path[0];
    if k in p && p[k].Obj? && |path| > 1 {
      if k in a && a[k].Obj? {
        MergeLookup(a[k].fields, p[k].fields, path[1..]);
      } else if Avoids(p, path) {
        AvoidsMeansAbsent(p[k].fields, path[1..]);
      }
    }
  }

  lemma {:induction false} AvoidsMeansAbsent(p: Object, path: seq<Text>)
    requires path != [] && Avoids(p, path)
    ensures Lookup(Obj(p), path) == None
    decreases |path|
  {
    if path[0] in p {
      AvoidsMeansAbsent(p[path[0]].fields, path[1..]);
    }
  }

  /** Everything `a` holds is overwritten by `q`. */
  predicate Overrides(a: Object, q: Object)
    decreases Obj(a)
  {
    forall k | k in a ::
      k in q && (a[k].Obj? && q[k].Obj? ==> Overrides(a[k].fields, q[k].fields))
  }

  lemma {:induction false} MergeCovered(a: Object, q: Object)
    ensures Merge(a, q) == q <==> Overrides(a, q)
    decreases Obj(a)
  {
    forall k | k in a && k in q && a[k].Obj? && q[k].Obj?
      ensures Merge(a[k].fields, q[k].fields) == q[k].fields <==> Overrides(a[k].fields, q[k].fields)
    {
      MergeCovered(a[k].fields, q[k].fields);
    }
    var m := Merge(a, q);
    if m == q {
      forall k | k in a
        ensures k in q && (a[k].Obj? && q[k].Obj? ==> Overrides(a[k].fields, q[k].fields))
      {
        assert k in m;
        assert m[k] == MergeValue(a, q, k);
      }
    }
    if Overrides(a, q) {
      assert m.Keys == q.Keys;
      forall k | k in q ensures m[k] == q[k] {
        assert m[k] == MergeValue(a, q, k);
      }
    }
  }

  predicate RejoinableAt(a: Object, p: Object, q: Object, k: Text)
    decreases Obj(a), 0
  {
    k in a && k in p && k in q && a[k].Obj? && q[k].Obj? ==>
      if p[k].Obj? then Rejoinable(a[k].fields, p[k].fields, q[k].fields)
      else Overrides(a[k].fields, q[k].fields)
  }

  /** Where `p` puts a non-object over an object of `a` and `q` puts an object there again, that
      object of `q` overwrites all of `a`'s. */
  predicate Rejoinable(a: Object, p: Object, q: Object)
    decreases Obj(a), 1
  {
    forall k | k in a :: RejoinableAt(a, p, q, k)
  }

  lemma {:induction false} MergeAssociativeAt(a: Object, p: Object, q: Object, k: Text)
    requires k in a.Keys + p.Keys + q.Keys
    ensures MergeValue(Merge(a, p), q, k) == MergeValue(a, Merge(p, q), k) <==> RejoinableAt(a, p, q, k)
    decreases Obj(a), 0
  {
    if k in a && k in p && k in q && a[k].Obj? && q[k].Obj? {
      if p[k].Obj? {
        MergeAssociative(a[k].fields, p[k].fields, q[k].fields);
      } else {
        MergeCovered(a[k].fields, q[k].fields);
      }
    }
  }

  /** Two patches may be combined first exactly when no object is destroyed and rebuilt over it. */
  lemma {:induction false} MergeAssociative(a: Object, p: Object, q: Object)
    ensures Merge(Merge(a, p), q) == Merge(a, Merge(p, q)) <==> Rejoinable(a, p, q)
    decreases Obj(a), 1
  {
    var l, r := Merge(Merge(a, p), q), Merge(a, Merge(p, q));
    forall k | k in l.Keys
      ensures l[k] == r[k] <==> RejoinableAt(a, p, q, k)
    {
      MergeAssociativeAt(a, p, q, k);
    }
  }

  /** The failing shape: the two groupings differ. */
  lemma MergeNotAssociative()
    ensures var k := Plain("k");
            var a, p, q := map[k := Obj(map[k := Num(1)])], map[k := Null], map[k := Obj(map[])];
            Merge(Merge(a, p), q) != Merge(a, Merge(p, q))
  {
    var k := Plain("k");
    var a, p, q := map[k := Obj(map[k := Num(1)])], map[k := Null], map[k := Obj(map[])];
    assert !Overrides(a[k].fields, q[k].fields) by {
      assert k in a[k].fields;
    }
    assert !Rejoinable(a, p, q) by {
      assert k in a && !RejoinableAt(a, p, q, k);
    }
    MergeAssociative(a, p, q);
  }
}
