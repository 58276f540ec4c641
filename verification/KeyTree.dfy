/** The walk `replaceKeys` of lib/util.js over nested objects and arrays, for any conversion of the keys. */
module KeyTree {
  import opened Basics

  datatype Json = Null | Bool(b: bool) | Num(n: real) | Str(s: string) | Arr(items: seq<Json>) | Obj(fields: seq<Field>)

  /** A property of an object, in insertion order. */
  datatype Field = Field(key: string, value: Json)

  predicate DistinctKeys(fields: seq<Field>) {
    forall i, j :: 0 <= i < j < |fields| ==> fields[i].key != fields[j].key
  }

  /** Every object in the tree has distinct keys, as a JavaScript object does. */
  predicate WellFormed(t: Json) {
    match t
    case Arr(items) => forall i :: 0 <= i < |items| ==> WellFormed(items[i])
    case Obj(fields) => DistinctKeys(fields) && forall i :: 0 <= i < |fields| ==> WellFormed(fields[i].value)
    case _ => true
  }

  predicate AllKeys(t: Json, p: string -> bool) {
    match t
    case Arr(items) => forall i :: 0 <= i < |items| ==> AllKeys(items[i], p)
    case Obj(fields) => forall i :: 0 <= i < |fields| ==> p(fields[i].key) && AllKeys(fields[i].value, p)
    case _ => true
  }

  /** Assigning to this key sets the object's prototype, or does nothing, and in either case adds no property. */
  const PROTO := "__proto__"

  /** The assignment `obj[key] = value`. */
  function Assign(fields: seq<Field>, f: Field): seq<Field> {
    if f.key == PROTO then fields else PutField(fields, f)
  }

  /** The assignment to any other key: an existing property keeps its place. */
  function PutField(fields: seq<Field>, f: Field): (r: seq<Field>)
    ensures (forall g :: g in fields ==> g.key != f.key) ==> r == fields + [f]
  {
    if fields == [] then [f]
    else if fields[0].key == f.key then [f] + fields[1..]
    else
      var rest := PutField(fields[1..], f);
      [fields[0]] + rest
  }

  /** The converted tree; a value that is neither an object nor an array stays as it is. */
  function Convert(newKey: string -> string, t: Json): Json
    decreases t, 1
  {
    match t
    case Arr(items) => Arr(ConvertItems(newKey, items))
    case Obj(fields) => Obj(ConvertFields(newKey, fields))
    case _ => t
  }

  function ConvertItems(newKey: string -> string, items: seq<Json>): (r: seq<Json>)
    ensures |r| == |items|
    ensures forall i :: 0 <= i < |items| ==> r[i] == Convert(newKey, items[i])
    decreases items, 0
  {
    if items == [] then []
    else ConvertItems(newKey, items[..|items| - 1]) + [Convert(newKey, items[|items| - 1])]
  }

  function ConvertField(newKey: string -> string, f: Field): Field
    decreases f, 3
  {
    Field(newKey(f.key), Convert(newKey, f.value))
  }

  function ConvertFields(newKey: string -> string, fields: seq<Field>): seq<Field>
    decreases fields, 0
  {
    if fields == [] then []
    else Assign(ConvertFields(newKey, fields[..|fields| - 1]), ConvertField(newKey, fields[|fields| - 1]))
  }

  // -------- the walk as the source runs it --------

  /** A string argument is itself converted; a string inside the tree is not. */
  method ReplaceKeys(newKey: string -> string, arg: Json) returns (r: Json)
    ensures r == if arg.Str? then Str(newKey(arg.s)) else Convert(newKey, arg)
    decreases arg, 1
  {
    match arg {
      case Str(s) =>
        r := Str(newKey(s));
      case Arr(items) =>
        var newArray := ReplaceItems(newKey, items);
        r := Arr(newArray);
      case Obj(fields) =>
        var newObj := ReplaceFields(newKey, fields);
        r := Obj(newObj);
      case _ =>
        r := arg;
    }
  }

  method ReplaceItems(newKey: string -> string, items: seq<Json>) returns (newArray: seq<Json>)
    ensures newArray == ConvertItems(newKey, items)
    decreases items, 0
  {
    newArray := [];
    for i := 0 to |items|
      invariant newArray == ConvertItems(newKey, items[..i])
    {
      var item := items[i];
      if item.Arr? || item.Obj? {
        item := ReplaceKeys(newKey, item);
      }
      assert items[..i + 1][..i] == items[..i];
      newArray := newArray + [item];
    }
    assert items[..|items|] == items;
  }

  lemma ConvertFieldsStep(newKey: string -> string, fields: seq<Field>, j: nat)
    requires j < |fields|
    ensures ConvertFields(newKey, fields[..j + 1])
            == Assign(ConvertFields(newKey, fields[..j]), ConvertField(newKey, fields[j]))
  {
    assert fields[..j + 1][..j] == fields[..j];
  }

  method ReplaceFields(newKey: string -> string, fields: seq<Field>) returns (newObj: seq<Field>)
    ensures newObj == ConvertFields(newKey, fields)
    decreases fields, 0
  {
    newObj := [];
    for j := 0 to |fields|
      invariant newObj == ConvertFields(newKey, fields[..j])
    {
      ConvertFieldsStep(newKey, fields, j);
      var val := fields[j].value;
      if val.Arr? || val.Obj? {
        val := ReplaceKeys(newKey, val);
      }
      newObj := Assign(newObj, Field(newKey(fields[j].key), val));
    }
    assert fields[..|fields|] == fields;
  }

  // -------- what an object holds when keys collide --------

  /** The new keys in the order in which they first come up. */
  function FirstKeys(newKey: string -> string, fields: seq<Field>): seq<string> {
    if fields == [] then []
    else
      var before, key := FirstKeys(newKey, fields[..|fields| - 1]), newKey(fields[|fields| - 1].key);
      if key == PROTO || key in before then before else before + [key]
  }

  /** The converted value of the last property with that new key. */
  function LastValue(newKey: string -> string, fields: seq<Field>, key: string): Option<Json> {
    if fields == [] then None
    else
      var last := fields[|fields| - 1];
      if newKey(last.key) == key then Some(Convert(newKey, last.value))
      else LastValue(newKey, fields[..|fields| - 1], key)
  }

  function Keys(fields: seq<Field>): seq<string> {
    seq(|fields|, i requires 0 <= i < |fields| => fields[i].key)
  }

  lemma {:induction false} PutKeys(fields: seq<Field>, f: Field)
    requires NoDup(Keys(fields))
    ensures Keys(PutField(fields, f)) == if f.key in Keys(fields) then Keys(fields) else Keys(fields) + [f.key]
    ensures forall g :: g in PutField(fields, f) <==> g == f || (g in fields && g.key != f.key)
  {
    if fields != [] {
      var rest, r := fields[1..], PutField(fields, f);
      FirstAndRest(fields);
      FirstKeyIsAlone(fields);
      KeysCons(r);
      if fields[0].key == f.key {
        assert r[1..] == rest;
      } else {
        PutKeys(rest, f);
        assert r[1..] == PutField(rest, f);
      }
    }
  }

  lemma KeysCons(fields: seq<Field>)
    requires fields != []
    ensures Keys(fields) == [fields[0].key] + Keys(fields[1..])
  {
  }

  lemma FirstAndRest(fields: seq<Field>)
    requires fields != []
    ensures Keys(fields) == [fields[0].key] + Keys(fields[1..])
    ensures forall g :: g in fields <==> g == fields[0] || g in fields[1..]
  {
    assert fields == [fields[0]] + fields[1..];
  }

  lemma FirstKeyIsAlone(fields: seq<Field>)
    requires fields != [] && NoDup(Keys(fields))
    ensures NoDup(Keys(fields[1..])) && forall g :: g in fields[1..] ==> g.key != fields[0].key
  {
    var rest := fields[1..];
    forall i, j | 0 <= i < j < |Keys(rest)| ensures Keys(rest)[i] != Keys(rest)[j] {
      assert Keys(rest)[i] == Keys(fields)[i + 1] && Keys(rest)[j] == Keys(fields)[j + 1];
    }
    forall g | g in rest ensures g.key != fields[0].key {
      var i :| 0 <= i < |rest| && rest[i] == g;
      assert Keys(fields)[i + 1] == g.key && Keys(fields)[0] == fields[0].key;
    }
  }

  /** An object's new keys are in the order in which they first come up, each once, and each holds the last value. */
  lemma {:induction false} LastValueWins(newKey: string -> string, fields: seq<Field>, key: string)
    ensures var r := ConvertFields(newKey, fields);
            && Keys(r) == FirstKeys(newKey, fields) && NoDup(Keys(r))
            && (forall v :: Field(key, v) in r <==> key != PROTO && LastValue(newKey, fields, key) == Some(v))
  {
    if fields != [] {
      var init, last := fields[..|fields| - 1], fields[|fields| - 1];
      LastValueWins(newKey, init, key);
      PutKeys(ConvertFields(newKey, init), ConvertField(newKey, last));
    }
  }

  // -------- keys that can be told apart do not collide --------

  /** The new keys are distinct, and none of them is the one that cannot be assigned. */
  predicate Apart(newKey: string -> string, fields: seq<Field>) {
    && (forall i, j :: 0 <= i < j < |fields| ==> newKey(fields[i].key) != newKey(fields[j].key))
    && (forall i :: 0 <= i < |fields| ==> newKey(fields[i].key) != PROTO)
  }

  /** Keys that stay apart collide with nothing: every property keeps its place. */
  lemma {:induction false} NoCollision(newKey: string -> string, fields: seq<Field>)
    requires Apart(newKey, fields)
    ensures |ConvertFields(newKey, fields)| == |fields|
    ensures forall i :: 0 <= i < |fields| ==> ConvertFields(newKey, fields)[i] == ConvertField(newKey, fields[i])
  {
    if fields != [] {
      var init, last := fields[..|fields| - 1], fields[|fields| - 1];
      NoCollision(newKey, init);
      var done := ConvertFields(newKey, init);
      forall g | g in done ensures g.key != newKey(last.key) {
        var i :| 0 <= i < |done| && done[i] == g;
        assert g == ConvertField(newKey, init[i]) && init[i] == fields[i];
      }
      assert ConvertFields(newKey, fields) == done + [ConvertField(newKey, last)];
    }
  }

  /** What a key round trip must do to the keys that satisfy `p`: give them back, without passing through a key that
      cannot be assigned. */
  ghost predicate Undoes(newKey: string -> string, back: string -> string, p: string -> bool) {
    forall key :: p(key) ==> back(newKey(key)) == key && newKey(key) != PROTO && key != PROTO
  }

  /** Keys that another conversion undoes stay apart. */
  lemma UndoneKeysStayApart(newKey: string -> string, back: string -> string, fields: seq<Field>)
    requires DistinctKeys(fields) && forall i :: 0 <= i < |fields| ==> back(newKey(fields[i].key)) == fields[i].key
    requires forall i :: 0 <= i < |fields| ==> newKey(fields[i].key) != PROTO
    ensures Apart(newKey, fields)
  {
  }

  lemma {:induction false} TreeRoundTrip(newKey: string -> string, back: string -> string, p: string -> bool, t: Json)
    requires WellFormed(t) && AllKeys(t, p) && Undoes(newKey, back, p)
    ensures Convert(back, Convert(newKey, t)) == t
    decreases t, 1
  {
    match t
    case Arr(items) => ItemsRoundTrip(newKey, back, p, items);
    case Obj(fields) => FieldsRoundTrip(newKey, back, p, fields);
    case _ =>
  }

  lemma {:induction false} ItemsRoundTrip(newKey: string -> string, back: string -> string, p: string -> bool,
                                          items: seq<Json>)
    requires WellFormed(Arr(items)) && AllKeys(Arr(items), p) && Undoes(newKey, back, p)
    ensures ConvertItems(back, ConvertItems(newKey, items)) == items
    decreases items, 0
  {
    forall i | 0 <= i < |items| ensures Convert(back, Convert(newKey, items[i])) == items[i] {
      TreeRoundTrip(newKey, back, p, items[i]);
    }
  }

  lemma {:induction false} FieldsRoundTrip(newKey: string -> string, back: string -> string, p: string -> bool,
                                           fields: seq<Field>)
    requires WellFormed(Obj(fields)) && AllKeys(Obj(fields), p) && Undoes(newKey, back, p)
    ensures ConvertFields(back, ConvertFields(newKey, fields)) == fields
    decreases fields, 0
  {
    UndoneKeysStayApart(newKey, back, fields);
    NoCollision(newKey, fields);
    var mid := ConvertFields(newKey, fields);
    forall i | 0 <= i < |fields| ensures ConvertField(back, mid[i]) == fields[i] {
      TreeRoundTrip(newKey, back, p, fields[i].value);
    }
    MiddleApart(back, mid, fields);
    NoCollision(back, mid);
  }

  lemma MiddleApart(back: string -> string, mid: seq<Field>, fields: seq<Field>)
    requires |mid| == |fields| && DistinctKeys(fields) && forall i :: 0 <= i < |fields| ==> fields[i].key != PROTO
    requires forall i :: 0 <= i < |fields| ==> ConvertField(back, mid[i]) == fields[i]
    ensures Apart(back, mid)
  {
    forall i, j | 0 <= i < j < |mid| ensures back(mid[i].key) != back(mid[j].key) {
      assert ConvertField(back, mid[i]) == fields[i] && ConvertField(back, mid[j]) == fields[j];
    }
    forall i | 0 <= i < |mid| ensures back(mid[i].key) != PROTO {
      assert ConvertField(back, mid[i]) == fields[i];
    }
  }

  /** A property whose new key cannot be assigned is lost. */
  lemma LostField(newKey: string -> string, f: Field)
    requires newKey(f.key) == PROTO
    ensures Convert(newKey, Obj([f])) == Obj([])
  {
    var none: seq<Field> := [];
    assert [f][..0] == none && ConvertFields(newKey, none) == none;
    assert ConvertFields(newKey, [f]) == Assign(none, ConvertField(newKey, f));
  }

  // -------- and a key that is not undone makes the tree lighter --------

  function Sum(fields: seq<Field>, m: Field -> nat): nat {
    if fields == [] then 0 else Sum(fields[..|fields| - 1], m) + m(fields[|fields| - 1])
  }

  lemma {:induction false} SumCons(fields: seq<Field>, m: Field -> nat)
    requires fields != []
    ensures Sum(fields, m) == m(fields[0]) + Sum(fields[1..], m)
  {
    if |fields| > 1 {
      SumCons(fields[..|fields| - 1], m);
      assert fields[1..][..|fields| - 2] == fields[..|fields| - 1][1..];
    }
  }

  lemma {:induction false} SumPut(fields: seq<Field>, f: Field, m: Field -> nat)
    ensures Sum(PutField(fields, f), m) <= Sum(fields, m) + m(f)
  {
    var r := PutField(fields, f);
    SumCons(r, m);
    if fields != [] {
      SumCons(fields, m);
      if fields[0].key == f.key {
        assert r[1..] == fields[1..];
      } else {
        SumPut(fields[1..], f, m);
        assert r[1..] == PutField(fields[1..], f);
      }
    }
  }

  /** What a converted property weighs, nothing when it cannot be assigned. */
  function Cost(newKey: string -> string, f: Field, m: Field -> nat): nat {
    if newKey(f.key) == PROTO then 0 else m(ConvertField(newKey, f))
  }

  ghost predicate NowhereHeavier(newKey: string -> string, fields: seq<Field>, m: Field -> nat, m': Field -> nat) {
    forall i :: 0 <= i < |fields| ==> Cost(newKey, fields[i], m) <= m'(fields[i])
  }

  ghost predicate SomewhereLighter(newKey: string -> string, fields: seq<Field>, m: Field -> nat, m': Field -> nat) {
    exists i :: 0 <= i < |fields| && Cost(newKey, fields[i], m) < m'(fields[i])
  }

  /** Collisions and lost assignments can only lower the sum of a measure over the converted properties. */
  lemma {:induction false} SumConverted(newKey: string -> string, fields: seq<Field>, m: Field -> nat, m': Field -> nat)
    requires NowhereHeavier(newKey, fields, m, m')
    ensures Sum(ConvertFields(newKey, fields), m) <= Sum(fields, m')
    ensures SomewhereLighter(newKey, fields, m, m') ==> Sum(ConvertFields(newKey, fields), m) < Sum(fields, m')
  {
    if fields != [] {
      var init, last := fields[..|fields| - 1], fields[|fields| - 1];
      SumConverted(newKey, init, m, m');
      SumPut(ConvertFields(newKey, init), ConvertField(newKey, last), m);
      LighterInit(newKey, fields, m, m');
      assert Cost(newKey, fields[|init|], m) <= m'(fields[|init|]);
    }
  }

  lemma LighterInit(newKey: string -> string, fields: seq<Field>, m: Field -> nat, m': Field -> nat)
    requires fields != []
    ensures SomewhereLighter(newKey, fields, m, m') ==>
              SomewhereLighter(newKey, fields[..|fields| - 1], m, m') ||
              Cost(newKey, fields[|fields| - 1], m) < m'(fields[|fields| - 1])
  {
    if i :| 0 <= i < |fields| && Cost(newKey, fields[i], m) < m'(fields[i]) {
      assert i == |fields| - 1 || fields[..|fields| - 1][i] == fields[i];
    }
  }

  function FieldWeight(w: string -> nat, f: Field): nat
    decreases f, 0
  {
    1 + w(f.key) + TreeWeight(w, f.value)
  }

  /** The weight of all the keys in the tree, and one for every property. */
  function TreeWeight(w: string -> nat, t: Json): nat
    decreases t, 1
  {
    match t
    case Arr(items) => ItemsWeight(w, items)
    case Obj(fields) => FieldsWeight(w, fields)
    case _ => 0
  }

  function ItemsWeight(w: string -> nat, items: seq<Json>): nat
    decreases items, 0
  {
    if items == [] then 0 else ItemsWeight(w, items[..|items| - 1]) + TreeWeight(w, items[|items| - 1])
  }

  function FieldsWeight(w: string -> nat, fields: seq<Field>): nat
    decreases fields, 0
  {
    if fields == [] then 0 else FieldsWeight(w, fields[..|fields| - 1]) + FieldWeight(w, fields[|fields| - 1])
  }

  function Weigh(w: string -> nat): Field -> nat {
    (f: Field) => FieldWeight(w, f)
  }

  function WeighBack(w: string -> nat, back: string -> string): Field -> nat {
    (f: Field) => Cost(back, f, Weigh(w))
  }

  lemma {:induction false} FieldsWeightIsSum(w: string -> nat, fields: seq<Field>)
    ensures FieldsWeight(w, fields) == Sum(fields, Weigh(w))
  {
    if fields != [] {
      FieldsWeightIsSum(w, fields[..|fields| - 1]);
    }
  }

  lemma {:induction false} ItemsWeightMono(w: string -> nat, a: seq<Json>, b: seq<Json>)
    requires |a| == |b| && forall i :: 0 <= i < |a| ==> TreeWeight(w, a[i]) <= TreeWeight(w, b[i])
    ensures ItemsWeight(w, a) <= ItemsWeight(w, b)
    ensures forall i :: 0 <= i < |a| && TreeWeight(w, a[i]) < TreeWeight(w, b[i]) ==>
            ItemsWeight(w, a) < ItemsWeight(w, b)
  {
    if a != [] {
      var n := |a| - 1;
      ItemsWeightMono(w, a[..n], b[..n]);
      forall i | 0 <= i < |a| && TreeWeight(w, a[i]) < TreeWeight(w, b[i])
        ensures ItemsWeight(w, a) < ItemsWeight(w, b)
      {
        if i < n {
          assert TreeWeight(w, a[..n][i]) < TreeWeight(w, b[..n][i]);
        }
      }
    }
  }

  /** And to the other keys: give back a lighter one, or one that cannot be assigned on the way. */
  ghost predicate Lightens(newKey: string -> string, back: string -> string, p: string -> bool, w: string -> nat) {
    && Undoes(newKey, back, p)
    && (forall key :: !p(key) ==> w(back(newKey(key))) < w(key) || newKey(key) == PROTO || back(newKey(key)) == PROTO)
  }

  lemma {:induction false} LostTreeIsLighter(newKey: string -> string, back: string -> string, p: string -> bool,
                                             w: string -> nat, t: Json)
    requires Lightens(newKey, back, p, w)
    ensures TreeWeight(w, Convert(back, Convert(newKey, t))) <= TreeWeight(w, t)
    ensures !AllKeys(t, p) ==> TreeWeight(w, Convert(back, Convert(newKey, t))) < TreeWeight(w, t)
    decreases t, 1
  {
    match t
    case Arr(items) => LostArrayIsLighter(newKey, back, p, w, items);
    case Obj(fields) => LostObjectIsLighter(newKey, back, p, w, fields);
    case _ =>
  }

  lemma {:induction false} LostArrayIsLighter(newKey: string -> string, back: string -> string, p: string -> bool,
                                              w: string -> nat, items: seq<Json>)
    requires Lightens(newKey, back, p, w)
    ensures ItemsWeight(w, ConvertItems(back, ConvertItems(newKey, items))) <= ItemsWeight(w, items)
    ensures !AllKeys(Arr(items), p) ==>
            ItemsWeight(w, ConvertItems(back, ConvertItems(newKey, items))) < ItemsWeight(w, items)
    decreases items, 0
  {
    var there := ConvertItems(back, ConvertItems(newKey, items));
    forall i | 0 <= i < |items|
      ensures TreeWeight(w, there[i]) <= TreeWeight(w, items[i])
      ensures !AllKeys(items[i], p) ==> TreeWeight(w, there[i]) < TreeWeight(w, items[i])
    {
      LostTreeIsLighter(newKey, back, p, w, items[i]);
    }
    ItemsWeightMono(w, there, items);
  }

  lemma {:induction false} LostObjectIsLighter(newKey: string -> string, back: string -> string, p: string -> bool,
                                               w: string -> nat, fields: seq<Field>)
    requires Lightens(newKey, back, p, w)
    ensures FieldsWeight(w, ConvertFields(back, ConvertFields(newKey, fields))) <= FieldsWeight(w, fields)
    ensures !AllKeys(Obj(fields), p) ==>
              FieldsWeight(w, ConvertFields(back, ConvertFields(newKey, fields))) < FieldsWeight(w, fields)
    decreases fields, 0
  {
    forall i | 0 <= i < |fields|
      ensures Cost(newKey, fields[i], WeighBack(w, back)) <= Weigh(w)(fields[i])
      ensures !(p(fields[i].key) && AllKeys(fields[i].value, p)) ==>
                Cost(newKey, fields[i], WeighBack(w, back)) < Weigh(w)(fields[i])
    {
      LostTreeIsLighter(newKey, back, p, w, fields[i].value);
      LostFieldIsLighter(newKey, back, p, w, fields[i]);
    }
    if !AllKeys(Obj(fields), p) {
      var i :| 0 <= i < |fields| && !(p(fields[i].key) && AllKeys(fields[i].value, p));
      assert SomewhereLighter(newKey, fields, WeighBack(w, back), Weigh(w));
    }
    TwoConversionsWeigh(newKey, back, w, fields);
  }

  lemma LostFieldIsLighter(newKey: string -> string, back: string -> string, p: string -> bool, w: string -> nat,
                           f: Field)
    requires Lightens(newKey, back, p, w)
    requires TreeWeight(w, Convert(back, Convert(newKey, f.value))) <= TreeWeight(w, f.value)
    requires !AllKeys(f.value, p) ==> TreeWeight(w, Convert(back, Convert(newKey, f.value))) < TreeWeight(w, f.value)
    ensures Cost(newKey, f, WeighBack(w, back)) <= Weigh(w)(f)
    ensures !(p(f.key) && AllKeys(f.value, p)) ==> Cost(newKey, f, WeighBack(w, back)) < Weigh(w)(f)
  {
    if !p(f.key) {
      assert w(back(newKey(f.key))) < w(f.key) || newKey(f.key) == PROTO || back(newKey(f.key)) == PROTO;
    } else {
      assert back(newKey(f.key)) == f.key;
    }
  }

  lemma TwoConversionsWeigh(newKey: string -> string, back: string -> string, w: string -> nat, fields: seq<Field>)
    requires NowhereHeavier(newKey, fields, WeighBack(w, back), Weigh(w))
    ensures FieldsWeight(w, ConvertFields(back, ConvertFields(newKey, fields))) <= FieldsWeight(w, fields)
    ensures SomewhereLighter(newKey, fields, WeighBack(w, back), Weigh(w)) ==>
              FieldsWeight(w, ConvertFields(back, ConvertFields(newKey, fields))) < FieldsWeight(w, fields)
  {
    var mid := ConvertFields(newKey, fields);
    SumConverted(newKey, fields, WeighBack(w, back), Weigh(w));
    assert NowhereHeavier(back, mid, Weigh(w), WeighBack(w, back));
    SumConverted(back, mid, Weigh(w), WeighBack(w, back));
    FieldsWeightIsSum(w, fields);
    FieldsWeightIsSum(w, ConvertFields(back, mid));
  }

  /** The tree comes back from the round trip exactly when all its keys do, whatever collides on the way. */
  lemma TreeRoundTripIff(newKey: string -> string, back: string -> string, p: string -> bool, w: string -> nat, t: Json)
    requires WellFormed(t) && Lightens(newKey, back, p, w)
    ensures Convert(back, Convert(newKey, t)) == t <==> AllKeys(t, p)
  {
    if AllKeys(t, p) {
      TreeRoundTrip(newKey, back, p, t);
    } else {
      LostTreeIsLighter(newKey, back, p, w, t);
    }
  }
}
