/** The recursive size, depth and reference check on capability schemas
    (src/grantora/capabilities/validation.py). */
module SchemaWalk {
  import opened Prelude
  import opened Json

  const MAX_DEPTH := 12
  const MAX_NODES := 400
  const FORBIDDEN_KEYS: set<string> := {"$ref", "$dynamicRef"}

  predicate HoldsForbiddenKey(j: Json) {
    j.Obj? && j.fields.Keys * FORBIDDEN_KEYS != {}
  }

  /** The sum of two walks; None is the raised error. */
  function Plus(a: Option<nat>, b: Option<nat>): Option<nat> {
    if a.Some? && b.Some? then Some(a.value + b.value) else None
  }

  /** _walk_schema_nodes: the number of nodes, or None when it raises. */
  ghost function Walk(j: Json, depth: nat): Option<nat>
    decreases j, 1, 0
  {
    if depth > MAX_DEPTH || HoldsForbiddenKey(j) then None
    else
      match j
      case Obj(fields) => Plus(Some(1), WalkFields(j, fields.Keys, depth + 1))
      case Arr(items) => Plus(Some(1), WalkItems(j, |items|, depth + 1))
      case _ => Some(1)
  }

  /** The sum over some of the fields of an object, in any order. */
  ghost function WalkFields(j: Json, keys: set<string>, depth: nat): Option<nat>
    requires j.Obj? && keys <= j.fields.Keys
    decreases j, 0, |keys|
  {
    if keys == {} then Some(0)
    else
      var k :| k in keys;
      Plus(Walk(j.fields[k], depth), WalkFields(j, keys - {k}, depth))
  }

  /** The sum over the first n items of an array. */
  ghost function WalkItems(j: Json, n: nat, depth: nat): Option<nat>
    requires j.Arr? && n <= |j.items|
    decreases j, 0, n
  {
    if n == 0 then Some(0) else Plus(WalkItems(j, n - 1, depth), Walk(j.items[n - 1], depth))
  }

  // ----- Nodes as the places of a document -----

  datatype Step = Key(k: string) | Index(i: nat)
  type Place = seq<Step>

  /** All places of a document: the root, and the places below each member. */
  ghost function Places(j: Json): set<Place>
    decreases j, 1
  {
    match j
    case Obj(fields) => {[]} + FieldPlaces(j, fields.Keys)
    case Arr(items) => {[]} + ItemPlaces(j, |items|)
    case _ => {[]}
  }

  ghost function Below(step: Step, places: set<Place>): set<Place> {
    set p | p in places :: [step] + p
  }

  ghost function FieldPlaces(j: Json, keys: set<string>): set<Place>
    requires j.Obj? && keys <= j.fields.Keys
    decreases j, 0
  {
    set k, p | k in keys && p in Places(j.fields[k]) :: [Key(k)] + p
  }

  ghost function ItemPlaces(j: Json, n: nat): set<Place>
    requires j.Arr? && n <= |j.items|
    decreases j, 0
  {
    set i, p | 0 <= i < n && p in Places(j.items[i]) :: [Index(i)] + p
  }

  ghost predicate At(j: Json, place: Place, node: Json)
    decreases |place|
  {
    if place == [] then node == j
    else
      match place[0]
      case Key(k) => j.Obj? && k in j.fields && At(j.fields[k], place[1..], node)
      case Index(i) => j.Arr? && i < |j.items| && At(j.items[i], place[1..], node)
  }

  /** No node lies deeper than the limit, counted from the given depth, and no mapping holds a reference key. */
  ghost predicate Acceptable(j: Json, depth: nat) {
    && (forall place :: place in Places(j) ==> depth + |place| <= MAX_DEPTH)
    && (forall place, node :: place in Places(j) && At(j, place, node) ==> !HoldsForbiddenKey(node))
  }

  ghost predicate HasChild(j: Json, step: Step) {
    match step
    case Key(k) => j.Obj? && k in j.fields
    case Index(i) => j.Arr? && i < |j.items|
  }

  ghost function Child(j: Json, step: Step): Json
    requires HasChild(j, step)
  {
    match step
    case Key(k) => j.fields[k]
    case Index(i) => j.items[i]
  }

  lemma PlacesBelow(j: Json, place: Place)
    ensures place in Places(j) <==> place == [] || (HasChild(j, place[0]) && place[1..] in Places(Child(j, place[0])))
  {
    if place != [] {
      assert place == [place[0]] + place[1..];
      if place in Places(j) && j.Obj? {
        assert place in FieldPlaces(j, j.fields.Keys);
        var k, p :| k in j.fields.Keys && p in Places(j.fields[k]) && place == [Key(k)] + p;
        assert place[1..] == p;
      } else if place in Places(j) && j.Arr? {
        assert place in ItemPlaces(j, |j.items|);
        var i, p :| 0 <= i < |j.items| && p in Places(j.items[i]) && place == [Index(i)] + p;
        assert place[1..] == p;
      }
    }
  }

  /** A document is acceptable exactly when its root is and every child is, one level down. */
  lemma AcceptableIff(j: Json, depth: nat)
    ensures Acceptable(j, depth) <==> (
      depth <= MAX_DEPTH && !HoldsForbiddenKey(j) && forall step :: HasChild(j, step) ==>
        Acceptable(Child(j, step), depth + 1))
  {
    hide HoldsForbiddenKey, HasChild, Child, Places;
    if Acceptable(j, depth) {
      PlacesBelow(j, []);
      assert At(j, [], j);
      forall step | HasChild(j, step) ensures Acceptable(Child(j, step), depth + 1) {
        ChildAcceptable(j, depth, step);
      }
    }
    if depth <= MAX_DEPTH && !HoldsForbiddenKey(j) && forall step :: HasChild(j, step) ==>
        Acceptable(Child(j, step), depth + 1) {
      forall place | place in Places(j)
        ensures depth + |place| <= MAX_DEPTH && forall node :: At(j, place, node) ==> !HoldsForbiddenKey(node)
      {
        PlacesBelow(j, place);
        forall node | At(j, place, node) ensures !HoldsForbiddenKey(node) { AtStep(j, place, node); }
      }
    }
  }

  lemma ChildAcceptable(j: Json, depth: nat, step: Step)
    requires Acceptable(j, depth) && HasChild(j, step)
    ensures Acceptable(Child(j, step), depth + 1)
  {
    hide HoldsForbiddenKey, Places;
    forall p | p in Places(Child(j, step))
      ensures depth + 1 + |p| <= MAX_DEPTH && forall node :: At(Child(j, step), p, node) ==> !HoldsForbiddenKey(node)
    {
      var place := [step] + p;
      assert place[0] == step && place[1..] == p;
      PlacesBelow(j, place);
      forall node | At(Child(j, step), p, node) ensures !HoldsForbiddenKey(node) {
        assert At(j, place, node);
      }
    }
  }

  lemma BelowAdds(step: Step, places: set<Place>, p: Place)
    requires p !in places
    ensures Below(step, places + {p}) == Below(step, places) + {[step] + p}
    ensures [step] + p !in Below(step, places)
  {
    forall q | q in places ensures [step] + q != [step] + p {
      assert ([step] + q)[1..] == q && ([step] + p)[1..] == p;
    }
  }

  lemma {:induction false} BelowSameSize(step: Step, places: set<Place>)
    ensures |Below(step, places)| == |places|
  {
    hide Below;
    if places == {} {
      NothingBelow(step);
    } else {
      var p :| p in places;
      BelowSameSize(step, places - {p});
      BelowAdds(step, places - {p}, p);
      assert (places - {p}) + {p} == places;
    }
  }

  lemma NothingBelow(step: Step)
    ensures Below(step, {}) == {}
  {
  }

  /** The walk returns exactly the number of nodes when the document is acceptable, and raises otherwise. */
  lemma {:induction false} WalkCountsNodes(j: Json, depth: nat)
    ensures Walk(j, depth) == if Acceptable(j, depth) then Some(|Places(j)|) else None
    decreases j, 1, 0
  {
    hide Acceptable, HoldsForbiddenKey, Places, FieldPlaces, ItemPlaces, HasChild, Child, WalkFields, WalkItems;
    AcceptableIff(j, depth);
    PlacesCount(j);
    if depth <= MAX_DEPTH && !HoldsForbiddenKey(j) {
      if j.Obj? {
        WalkFieldsCounts(j, j.fields.Keys, depth + 1);
        FieldsAreChildren(j, depth + 1);
      } else if j.Arr? {
        WalkItemsCounts(j, |j.items|, depth + 1);
        ItemsAreChildren(j, depth + 1);
      } else {
        NoChildren(j);
      }
    }
  }

  lemma PlacesCount(j: Json)
    ensures |Places(j)| == 1 + if j.Obj? then |FieldPlaces(j, j.fields.Keys)|
      else if j.Arr? then |ItemPlaces(j, |j.items|)| else 0
  {
    if j.Obj? {
      assert [] !in FieldPlaces(j, j.fields.Keys);
    } else if j.Arr? {
      assert [] !in ItemPlaces(j, |j.items|);
    }
  }

  lemma NoChildren(j: Json)
    requires !j.Obj? && !j.Arr?
    ensures forall step :: !HasChild(j, step)
  {
  }

  lemma FieldsAreChildren(j: Json, depth: nat)
    requires j.Obj?
    ensures (forall step :: HasChild(j, step) ==> Acceptable(Child(j, step), depth))
      <==> (forall k :: k in j.fields ==> Acceptable(j.fields[k], depth))
  {
    hide Acceptable;
    forall k | k in j.fields ensures HasChild(j, Key(k)) && Child(j, Key(k)) == j.fields[k] { }
  }

  lemma ItemsAreChildren(j: Json, depth: nat)
    requires j.Arr?
    ensures (forall step :: HasChild(j, step) ==> Acceptable(Child(j, step), depth))
      <==> (forall i :: 0 <= i < |j.items| ==> Acceptable(j.items[i], depth))
  {
    hide Acceptable;
    forall i: nat | i < |j.items| ensures HasChild(j, Index(i)) && Child(j, Index(i)) == j.items[i] { }
  }

  ghost predicate FieldsAcceptable(j: Json, keys: set<string>, depth: nat)
    requires j.Obj? && keys <= j.fields.Keys
  {
    forall k :: k in keys ==> Acceptable(j.fields[k], depth)
  }

  lemma {:induction false} WalkFieldsCounts(j: Json, keys: set<string>, depth: nat)
    requires j.Obj? && keys <= j.fields.Keys
    ensures WalkFields(j, keys, depth) == if FieldsAcceptable(j, keys, depth) then Some(|FieldPlaces(j, keys)|)
      else None
    decreases j, 0, |keys|
  {
    hide Acceptable, HoldsForbiddenKey;
    if keys == {} {
      assert FieldPlaces(j, keys) == {};
    } else {
      var k :| k in keys
        && WalkFields(j, keys, depth) == Plus(Walk(j.fields[k], depth), WalkFields(j, keys - {k}, depth));
      WalkCountsNodes(j.fields[k], depth);
      WalkFieldsCounts(j, keys - {k}, depth);
      FieldPlacesSplit(j, keys, k);
      assert Walk(j.fields[k], depth) == if Acceptable(j.fields[k], depth) then Some(|Places(j.fields[k])|) else None;
      assert WalkFields(j, keys, depth) == Plus(Walk(j.fields[k], depth), WalkFields(j, keys - {k}, depth));
      assert FieldsAcceptable(j, keys, depth)
        <==> Acceptable(j.fields[k], depth) && FieldsAcceptable(j, keys - {k}, depth);
    }
  }

  lemma FieldPlacesSplit(j: Json, keys: set<string>, k: string)
    requires j.Obj? && keys <= j.fields.Keys && k in keys
    ensures |FieldPlaces(j, keys)| == |FieldPlaces(j, keys - {k})| + |Places(j.fields[k])|
  {
    hide Places;
    var here, rest := Below(Key(k), Places(j.fields[k])), FieldPlaces(j, keys - {k});
    BelowSameSize(Key(k), Places(j.fields[k]));
    assert FieldPlaces(j, keys) == here + rest;
    forall p | p in here ensures p !in rest {
      assert p[0] == Key(k);
    }
  }

  lemma {:induction false} WalkItemsCounts(j: Json, n: nat, depth: nat)
    requires j.Arr? && n <= |j.items|
    ensures WalkItems(j, n, depth)
      == if forall i :: 0 <= i < n ==> Acceptable(j.items[i], depth) then Some(|ItemPlaces(j, n)|) else None
    decreases j, 0, n
  {
    hide Acceptable, HoldsForbiddenKey;
    if n == 0 {
      assert ItemPlaces(j, n) == {};
    } else {
      WalkItemsCounts(j, n - 1, depth);
      WalkCountsNodes(j.items[n - 1], depth);
      ItemPlacesSplit(j, n);
    }
  }

  lemma ItemPlacesSplit(j: Json, n: nat)
    requires j.Arr? && 0 < n <= |j.items|
    ensures |ItemPlaces(j, n)| == |ItemPlaces(j, n - 1)| + |Places(j.items[n - 1])|
  {
    hide Places;
    var here, rest := Below(Index(n - 1), Places(j.items[n - 1])), ItemPlaces(j, n - 1);
    BelowSameSize(Index(n - 1), Places(j.items[n - 1]));
    assert ItemPlaces(j, n) == here + rest;
    forall p | p in here ensures p !in rest {
      assert p[0] == Index(n - 1);
    }
  }

  // ----- The shape check -----

  /** _check_capability_schema_shape: true when it does not raise. */
  ghost predicate ShapeOk(schema: map<string, Json>) {
    && Get(schema, "type") == Str("object")
    && Get(schema, "additionalProperties") == Bool(false)
    && Walk(Obj(schema), 0).Some? && Walk(Obj(schema), 0).value <= MAX_NODES
  }

  /** A schema passes exactly when it is a closed object schema of at most 400 nodes, none deeper than 12,
      with no reference key in any mapping. */
  lemma ShapeOkIff(schema: map<string, Json>)
    ensures ShapeOk(schema) <==> (
      && Get(schema, "type") == Str("object") && Get(schema, "additionalProperties") == Bool(false)
      && (forall place :: place in Places(Obj(schema)) ==> |place| <= 12)
      && (forall place, node :: place in Places(Obj(schema)) && At(Obj(schema), place, node) && node.Obj? ==>
            "$ref" !in node.fields && "$dynamicRef" !in node.fields)
      && |Places(Obj(schema))| <= 400)
  {
    hide Places, At;
    WalkCountsNodes(Obj(schema), 0);
    forall node: Json ensures HoldsForbiddenKey(node)
      <==> node.Obj? && ("$ref" in node.fields || "$dynamicRef" in node.fields) {
      ForbiddenKeys(node);
    }
  }

  lemma ForbiddenKeys(node: Json)
    ensures HoldsForbiddenKey(node) <==> node.Obj? && ("$ref" in node.fields || "$dynamicRef" in node.fields)
  {
    if node.Obj? {
      if "$ref" in node.fields { assert "$ref" in node.fields.Keys * FORBIDDEN_KEYS; }
      if "$dynamicRef" in node.fields { assert "$dynamicRef" in node.fields.Keys * FORBIDDEN_KEYS; }
    }
  }

  /** Every node of an accepted document is accepted on its own and has no more nodes than the whole. */
  lemma {:induction false} SubtreesInherit(j: Json, place: Place, node: Json, depth: nat)
    requires Walk(j, depth).Some? && At(j, place, node)
    ensures Walk(node, depth).Some? && Walk(node, depth).value <= Walk(j, depth).value
    decreases |place|
  {
    hide HoldsForbiddenKey, At, Acceptable, Walk, Places, HasChild, Child;
    AtStep(j, place, node);
    if place != [] {
      var child := Child(j, place[0]);
      WalkCountsNodes(j, depth);
      AcceptableIff(j, depth);
      ShallowerIsAcceptable(child, depth + 1, depth);
      WalkCountsNodes(child, depth);
      ChildHasFewerPlaces(j, place[0]);
      SubtreesInherit(child, place[1..], node, depth);
    }
  }

  lemma AtStep(j: Json, place: Place, node: Json)
    requires At(j, place, node)
    ensures place == [] ==> node == j
    ensures place != [] ==> HasChild(j, place[0]) && At(Child(j, place[0]), place[1..], node)
  {
  }

  lemma ShallowerIsAcceptable(j: Json, deep: nat, shallow: nat)
    requires shallow <= deep && Acceptable(j, deep)
    ensures Acceptable(j, shallow)
  {
  }

  lemma ChildHasFewerPlaces(j: Json, step: Step)
    requires HasChild(j, step)
    ensures |Places(Child(j, step))| <= |Places(j)|
  {
    hide Places;
    BelowSameSize(step, Places(Child(j, step)));
    forall place | place in Below(step, Places(Child(j, step))) ensures place in Places(j) {
      var p :| p in Places(Child(j, step)) && place == [step] + p;
      assert place[0] == step && place[1..] == p;
      PlacesBelow(j, place);
    }
    SubsetCardinality(Below(step, Places(Child(j, step))), Places(j));
  }
}
