/** The recursive deep copy of clone.ts. */
module Clone {
  import opened Values

  type Props = seq<(string, Value)>

  /** The object has a property called `name`. */
  predicate Has(props: Props, name: string) {
    props != [] && (props[0].0 == name || Has(props[1..], name))
  }

  /** No property name occurs twice, as in every JavaScript object. */
  predicate DistinctNames(props: Props) {
    props == [] || (!Has(props[1..], props[0].0) && DistinctNames(props[1..]))
  }

  /** The name whose assignment on a plain object reaches the `Object.prototype.__proto__`
      setter instead of creating an own property. */
  const Proto: string := "__proto__"

  /** Every object in the tree has distinct property names and no own `__proto__`
      property: the objects `clone` builds. */
  predicate WellFormed(v: Value) {
    match v
    case Arr(items) => forall i :: 0 <= i < |items| ==> WellFormed(items[i])
    case Obj(props) =>
      DistinctNames(props) && !Has(props, Proto) && forall i :: 0 <= i < |props| ==> WellFormed(props[i].1)
    case _ => true
  }

  /** The property assignment `o[name] = value` on an object whose prototype is
      `Object.prototype`: an existing own property keeps its place and takes the new value.
      A new name is added last, which is where JavaScript puts it when names are assigned in
      the order `Object.getOwnPropertyNames` reports them. A new `__proto__` goes to the
      setter, which replaces the prototype (not modelled) and adds no own property. */
  function Assign(o: Props, name: string, value: Value): (r: Props)
    ensures forall n :: Has(r, n) <==> Has(o, n) || (n == name && name != Proto)
    ensures Has(o, name) || name != Proto || r == o
  {
    if o == [] then (if name == Proto then [] else [(name, value)])
    else if o[0].0 == name then [(name, value)] + o[1..]
    else [o[0]] + Assign(o[1..], name, value)
  }

  /** The pairs without the one named `__proto__`. */
  function WithoutProto(props: Props): (r: Props)
    ensures forall n :: Has(r, n) <==> Has(props, n) && n != Proto
    ensures !Has(props, Proto) ==> r == props
    decreases |props|
  {
    if props == [] then []
    else if props[0].0 == Proto then WithoutProto(props[1..])
    else [props[0]] + WithoutProto(props[1..])
  }

  /** Each own property paired with the clone of its value, as `clone(obj[prop])` at clone.ts:8. */
  function Copies(props: Props): (r: Props)
    ensures |r| == |props|
    ensures forall i :: 0 <= i < |props| ==> r[i] == (props[i].0, Clone(props[i].1))
  {
    seq(|props|, i requires 0 <= i < |props| => (props[i].0, Clone(props[i].1)))
  }

  /** `reduce((o, prop) => { o[prop] = ...; return o }, acc)` over the already cloned pairs. */
  function Accumulate(acc: Props, pairs: Props): Props
    decreases |pairs|
  {
    if pairs == [] then acc
    else Accumulate(Assign(acc, pairs[0].0, pairs[0].1), pairs[1..])
  }

  /** clone.ts:1-11. Arrays map `clone` over their items, a date is rebuilt from its time,
      a non-null object is rebuilt property by property into a fresh `{}`, and everything
      else (`undefined`, `null`, primitives) is returned as it is. */
  function Clone(v: Value): (r: Value)
    ensures WellFormed(r)
    decreases v
  {
    match v
    case Arr(items) =>
      var copies := seq(|items|, i requires 0 <= i < |items| => Clone(items[i]));
      Arr(copies)
    case Date(t) => Date(t)
    case Obj(props) =>
      var copies := seq(|props|, i requires 0 <= i < |props| => (props[i].0, Clone(props[i].1)));
      AccumulateWellFormed([], copies);
      Obj(Accumulate([], copies))
    case _ => v
  }

  lemma {:induction false} HasAt(props: Props, name: string)
    ensures Has(props, name) <==> exists i :: 0 <= i < |props| && props[i].0 == name
    decreases |props|
  {
    if props != [] {
      HasAt(props[1..], name);
      if Has(props[1..], name) {
        var i :| 0 <= i < |props[1..]| && props[1..][i].0 == name;
        assert props[i + 1].0 == name;
      }
      if exists i :: 0 <= i < |props| && props[i].0 == name {
        var i :| 0 <= i < |props| && props[i].0 == name;
        if i > 0 { assert props[1..][i - 1].0 == name; }
      }
    }
  }

  lemma {:induction false} DistinctAt(props: Props)
    ensures DistinctNames(props) <==> forall i, j :: 0 <= i < j < |props| ==> props[i].0 != props[j].0
    decreases |props|
  {
    if props != [] {
      DistinctAt(props[1..]);
      HasAt(props[1..], props[0].0);
      if DistinctNames(props) {
        forall i, j | 0 <= i < j < |props| ensures props[i].0 != props[j].0 {
          if i == 0 {
            assert props[1..][j - 1] == props[j];
          } else {
            assert props[1..][i - 1] == props[i] && props[1..][j - 1] == props[j];
          }
        }
      }
      if forall i, j :: 0 <= i < j < |props| ==> props[i].0 != props[j].0 {
        forall i, j | 0 <= i < j < |props[1..]| ensures props[1..][i].0 != props[1..][j].0 {
          assert props[1..][i] == props[i + 1] && props[1..][j] == props[j + 1];
        }
      }
    }
  }

  lemma {:induction false} AssignWellFormed(o: Props, name: string, value: Value)
    requires DistinctNames(o) && WellFormed(value)
    requires forall i :: 0 <= i < |o| ==> WellFormed(o[i].1)
    ensures DistinctNames(Assign(o, name, value))
    ensures forall i :: 0 <= i < |Assign(o, name, value)| ==> WellFormed(Assign(o, name, value)[i].1)
    decreases |o|
  {
    if o != [] {
      var r := Assign(o, name, value);
      if o[0].0 == name {
        assert r[1..] == o[1..];
        forall i | 0 <= i < |r| ensures WellFormed(r[i].1) {
          if i > 0 { assert r[i] == o[i]; }
        }
      } else {
        AssignWellFormed(o[1..], name, value);
        var rest := Assign(o[1..], name, value);
        assert r[1..] == rest;
        forall i | 0 <= i < |r| ensures WellFormed(r[i].1) {
          if i > 0 { assert r[i] == rest[i - 1]; }
        }
      }
    }
  }

  lemma {:induction false} AccumulateWellFormed(acc: Props, pairs: Props)
    requires DistinctNames(acc) && !Has(acc, Proto)
    requires forall i :: 0 <= i < |acc| ==> WellFormed(acc[i].1)
    requires forall i :: 0 <= i < |pairs| ==> WellFormed(pairs[i].1)
    ensures DistinctNames(Accumulate(acc, pairs)) && !Has(Accumulate(acc, pairs), Proto)
    ensures forall i :: 0 <= i < |Accumulate(acc, pairs)| ==> WellFormed(Accumulate(acc, pairs)[i].1)
    decreases |pairs|
  {
    if pairs != [] {
      AssignWellFormed(acc, pairs[0].0, pairs[0].1);
      AccumulateWellFormed(Assign(acc, pairs[0].0, pairs[0].1), pairs[1..]);
    }
  }

  /** Assigning a name the object does not yet have, other than `__proto__`, appends it. */
  lemma {:induction false} AssignFresh(o: Props, name: string, value: Value)
    requires !Has(o, name) && name != Proto
    ensures Assign(o, name, value) == o + [(name, value)]
    decreases |o|
  {
    if o != [] {
      AssignFresh(o[1..], name, value);
      assert o == [o[0]] + o[1..];
    }
  }

  lemma {:induction false} HasAppend(o: Props, p: (string, Value), name: string)
    ensures Has(o + [p], name) <==> Has(o, name) || p.0 == name
    decreases |o|
  {
    if o != [] {
      assert (o + [p])[1..] == o[1..] + [p];
      HasAppend(o[1..], p, name);
    }
  }

  /** No name of `pairs` is already a name of `acc`. */
  ghost predicate NewNames(pairs: Props, acc: Props) {
    forall n :: Has(pairs, n) ==> !Has(acc, n)
  }

  /** Reducing pairs with distinct names, none already in an accumulator without `__proto__`,
      appends them in order, except that a `__proto__` pair leaves no own property. */
  lemma {:induction false} AccumulateDistinct(acc: Props, pairs: Props)
    requires DistinctNames(pairs) && !Has(acc, Proto)
    requires NewNames(pairs, acc)
    ensures Accumulate(acc, pairs) == acc + WithoutProto(pairs)
    decreases |pairs|
  {
    if pairs != [] {
      var p, rest := pairs[0], pairs[1..];
      assert Has(pairs, p.0);
      var acc' := Assign(acc, p.0, p.1);
      assert Accumulate(acc, pairs) == Accumulate(acc', rest);
      if p.0 == Proto {
        assert acc' == acc;
        NewNamesRest(pairs, acc, acc);
        AccumulateDistinct(acc, rest);
        assert WithoutProto(pairs) == WithoutProto(rest);
      } else {
        AssignFresh(acc, p.0, p.1);
        HasAppend(acc, p, Proto);
        NewNamesRest(pairs, acc, acc');
        AccumulateDistinct(acc', rest);
        assert WithoutProto(pairs) == [p] + WithoutProto(rest);
        assert acc' + WithoutProto(rest) == acc + WithoutProto(pairs);
      }
    }
  }

  /** The names after the first are new to an accumulator that gained at most the first. */
  lemma {:induction false} NewNamesRest(pairs: Props, acc: Props, acc': Props)
    requires pairs != [] && DistinctNames(pairs) && NewNames(pairs, acc)
    requires acc' == acc || acc' == acc + [pairs[0]]
    ensures NewNames(pairs[1..], acc')
  {
    forall n | Has(pairs[1..], n) ensures !Has(acc', n) {
      assert Has(pairs, n);
      HasAppend(acc, pairs[0], n);
    }
  }

  lemma {:induction false} CopiesNames(props: Props)
    ensures forall n :: Has(Copies(props), n) <==> Has(props, n)
  {
    var copies := Copies(props);
    forall n ensures Has(copies, n) <==> Has(props, n) {
      HasAt(copies, n);
      HasAt(props, n);
      if Has(copies, n) {
        var i :| 0 <= i < |copies| && copies[i].0 == n;
        assert props[i].0 == n;
      }
      if Has(props, n) {
        var i :| 0 <= i < |props| && props[i].0 == n;
        assert copies[i].0 == n;
      }
    }
  }

  /** clone.ts:6-10 with clone.spec.ts:30-34: an object clones to an object whose own
      properties are its own properties in the same order, each mapped to the clone of its
      value, except an own `__proto__`, which the assignment on `{}` hands to the setter. */
  lemma CloneObject(props: Props)
    requires DistinctNames(props)
    ensures Clone(Obj(props)) == Obj(WithoutProto(Copies(props)))
    ensures !Has(props, Proto) ==> |Clone(Obj(props)).props| == |props| && forall i :: 0 <= i < |props| ==>
      Clone(Obj(props)).props[i] == (props[i].0, Clone(props[i].1))
  {
    var copies := Copies(props);
    assert Clone(Obj(props)) == Obj(Accumulate([], copies));
    DistinctAt(props);
    DistinctAt(copies);
    AccumulateDistinct([], copies);
    CopiesNames(props);
  }

  lemma {:induction false} AccumulateNames(acc: Props, pairs: Props)
    ensures forall n :: Has(Accumulate(acc, pairs), n) <==> Has(acc, n) || (Has(pairs, n) && n != Proto)
    decreases |pairs|
  {
    if pairs != [] {
      AccumulateNames(Assign(acc, pairs[0].0, pairs[0].1), pairs[1..]);
    }
  }

  /** clone.ts:6-10: whatever the input, the clone of an object has exactly its own
      property names other than `__proto__`. */
  lemma CloneObjectNames(props: Props)
    ensures Clone(Obj(props)).Obj?
    ensures forall n :: Has(Clone(Obj(props)).props, n) <==> Has(props, n) && n != Proto
  {
    var copies := Copies(props);
    assert Clone(Obj(props)) == Obj(Accumulate([], copies));
    AccumulateNames([], copies);
    CopiesNames(props);
  }

  /** The parsed JSON `{"__proto__": {"a": 1}, "b": 2}`: its `__proto__` own property
      becomes the copy's prototype, so the copy keeps only `b`. */
  lemma CloneProtoKey()
    ensures Clone(Obj([(Proto, Obj([("a", Prim(Num(1)))])), ("b", Prim(Num(2)))]))
         == Obj([("b", Prim(Num(2)))])
  {
    var props := [(Proto, Obj([("a", Prim(Num(1)))])), ("b", Prim(Num(2)))];
    assert "b" != Proto;
    assert !Has(props[1..], props[0].0);
    CloneObject(props);
    assert WithoutProto(Copies(props)) == [("b", Prim(Num(2)))];
  }

  /** clone.ts:2-3 with clone.spec.ts:42-46: an array clones to an array of the same length
      whose items are the clones of the original items. */
  lemma CloneArray(items: seq<Value>)
    ensures Clone(Arr(items)).Arr?
    ensures |Clone(Arr(items)).items| == |items|
    ensures forall i :: 0 <= i < |items| ==> Clone(Arr(items)).items[i] == Clone(items[i])
  {
  }

  /** clone.ts:4-5, 6, 11 with clone.spec.ts:4-22, 54-58: a date keeps its time; `undefined`,
      `null` and primitives come back unchanged. */
  lemma CloneScalars(v: Value)
    ensures v.Date? ==> Clone(v) == Date(v.time)
    ensures v.Undefined? || v.Null? || v.Prim? ==> Clone(v) == v
  {
  }

  /** On a value `clone` could have built, the clone is structurally equal to the original
      at every depth. */
  lemma {:induction false} CloneIsIdentity(v: Value)
    requires WellFormed(v)
    ensures Clone(v) == v
    decreases v
  {
    match v
    case Arr(items) =>
      forall i | 0 <= i < |items| ensures Clone(items[i]) == items[i] {
        CloneIsIdentity(items[i]);
      }
      assert Clone(v).items == items;
    case Obj(props) =>
      CloneObject(props);
      assert !Has(props, Proto);
      forall i | 0 <= i < |props| ensures Clone(props[i].1) == props[i].1 {
        CloneIsIdentity(props[i].1);
      }
      assert Clone(v).props == props;
    case _ =>
  }

  /** Cloning a clone gives the same value again. */
  lemma CloneIdempotent(v: Value)
    ensures Clone(Clone(v)) == Clone(v)
  {
    CloneIsIdentity(Clone(v));
  }
}
