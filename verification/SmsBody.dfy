// The request body as the objects setPath updates in place: objects refer to their children by position in the store.
// A body is a tree, because every object but the first is created for exactly one field.
module SmsBody {
  import opened Text
  import opened SmsPaths

  datatype Slot = Leaf(text: string) | Ref(child: nat)

  type Store = seq<map<string, Slot>>

  // Whether field k of object o holds child c.
  predicate Holds(h: Store, o: nat, k: string, c: nat) { o < |h| && k in h[o] && h[o][k] == Ref(c) }

  ghost predicate Tree(h: Store) {
    && |h| > 0
    && (forall o: nat, k, c: nat :: Holds(h, o, k, c) ==> o < c < |h|)
    && (forall o: nat, k, p: nat, l, c: nat :: Holds(h, o, k, c) && Holds(h, p, l, c) ==> o == p && k == l)
  }

  ghost function FieldsOf(h: Store, o: nat): map<string, Value>
    requires Tree(h) && o < |h|
    decreases |h| - o
  {
    map k | k in h[o] :: SlotValue(h, o, k)
  }

  ghost function SlotValue(h: Store, o: nat, k: string): Value
    requires Tree(h) && o < |h| && k in h[o]
    decreases |h| - o, 0
  {
    match h[o][k]
    case Leaf(text) => Scalar(text)
    case Ref(c) =>
      assert Holds(h, o, k, c);
      Object(FieldsOf(h, c))
  }

  function SetIn(h: Store, o: nat, parts: seq<string>, text: string): Store
    requires |parts| > 0 && o < |h|
    decreases |parts|
  {
    if |parts| == 1 then h[o := h[o][parts[0] := Leaf(text)]]
    else if parts[0] in h[o] && h[o][parts[0]].Ref? && h[o][parts[0]].child < |h|
    then SetIn(h, h[o][parts[0]].child, parts[1..], text)
    else SetIn(h[o := h[o][parts[0] := Ref(|h|)]] + [map[]], |h|, parts[1..], text)
  }

  class RequestBody {
    var objects: seq<map<string, Slot>>

    ghost predicate Valid()
      reads this
    {
      Tree(objects)
    }

    ghost function Contents(): map<string, Value>
      reads this
      requires Valid()
    {
      FieldsOf(objects, 0)
    }

    constructor ()
      ensures Valid() && Contents() == map[]
    {
      objects := [map[]];
    }

    method SetPath(path: string, text: string)
      requires Valid()
      modifies this
      ensures Valid() && Contents() == Set(old(Contents()), Split(path, '.'), Scalar(text))
    {
      var parts := Split(path, '.');
      ghost var before := objects;
      var current: nat := 0;
      var i := 0;
      while i < |parts| - 1
        invariant 0 <= i < |parts| && current < |objects| && Tree(objects)
        invariant SetIn(before, 0, parts, text) == SetIn(objects, current, parts[i..], text)
      {
        var part := parts[i];
        assert parts[i..][1..] == parts[i + 1..] && parts[i..][0] == part;
        if part !in objects[current] || !objects[current][part].Ref? {
          AllocateKeeps(objects, current, part);
          objects := objects[current := objects[current][part := Ref(|objects|)]] + [map[]];
          current := |objects| - 1;
        } else {
          assert Holds(objects, current, part, objects[current][part].child);
          current := objects[current][part].child;
        }
        i := i + 1;
      }
      assert parts[i..] == [parts[i]];
      objects := objects[current := objects[current][parts[i] := Leaf(text)]];
      SetInIsSet(before, 0, parts, text);
    }
  }

  lemma AllocateKeeps(h: Store, o: nat, k: string)
    requires Tree(h) && o < |h|
    ensures Tree(h[o := h[o][k := Ref(|h|)]] + [map[]])
  {
    var t := h[o := h[o][k := Ref(|h|)]] + [map[]];
    forall p: nat, l, c: nat | Holds(t, p, l, c) ensures (p == o && l == k && c == |h|) || Holds(h, p, l, c) {}
  }

  lemma LeafKeeps(h: Store, o: nat, k: string, text: string)
    requires Tree(h) && o < |h|
    ensures Tree(h[o := h[o][k := Leaf(text)]])
  {
    var t := h[o := h[o][k := Leaf(text)]];
    forall p: nat, l, c: nat | Holds(t, p, l, c) ensures Holds(h, p, l, c) {}
  }

  // ---- Reachability ----

  ghost predicate Reaches(h: Store, d: nat, o: nat)
    requires Tree(h) && d < |h|
    decreases |h| - d
  {
    d == o || exists k, c: nat :: Holds(h, d, k, c) && Reaches(h, c, o)
  }

  lemma {:induction false} ReachesDown(h: Store, d: nat, o: nat)
    requires Tree(h) && d < |h| && Reaches(h, d, o)
    ensures d <= o
    decreases |h| - d
  {
    if d != o {
      var k, c: nat :| Holds(h, d, k, c) && Reaches(h, c, o);
      ReachesDown(h, c, o);
    }
  }

  // The only way to an object is through its parent.
  lemma {:induction false} ThroughParent(h: Store, d: nat, o: nat, k: string, c: nat)
    requires Tree(h) && d < |h| && Reaches(h, d, c) && d != c && Holds(h, o, k, c)
    ensures Reaches(h, d, o)
    decreases |h| - d
  {
    var l, e: nat :| Holds(h, d, l, e) && Reaches(h, e, c);
    if e != c { ThroughParent(h, e, o, k, c); }
  }

  ghost predicate Apart(h: Store, d: nat, o: nat)
    requires Tree(h) && d < |h| && o < |h|
  {
    !Reaches(h, d, o) && !Reaches(h, o, d)
  }

  // What o does not concern stays when only o's fields change and objects are added.
  lemma {:induction false} Untouched(h: Store, t: Store, o: nat, d: nat)
    requires Tree(h) && Tree(t) && |h| <= |t| && d < |h| && o < |h| && !Reaches(h, d, o)
    requires forall i :: 0 <= i < |h| && i != o ==> t[i] == h[i]
    ensures FieldsOf(t, d) == FieldsOf(h, d)
    ensures forall x: nat :: Reaches(t, d, x) <==> Reaches(h, d, x)
    decreases |h| - d
  {
    assert t[d] == h[d];
    forall k, c: nat | Holds(h, d, k, c)
      ensures FieldsOf(t, c) == FieldsOf(h, c) && forall x: nat :: Reaches(t, c, x) <==> Reaches(h, c, x)
    {
      Untouched(h, t, o, c);
    }
    forall k | k in h[d] ensures SlotValue(t, d, k) == SlotValue(h, d, k) {
      if h[d][k].Ref? { assert Holds(h, d, k, h[d][k].child); }
    }
    forall x: nat ensures Reaches(t, d, x) <==> Reaches(h, d, x) {
      if Reaches(t, d, x) && d != x {
        var k, c: nat :| Holds(t, d, k, c) && Reaches(t, c, x);
        assert Holds(h, d, k, c);
      }
      if Reaches(h, d, x) && d != x {
        var k, c: nat :| Holds(h, d, k, c) && Reaches(h, c, x);
        assert Holds(t, d, k, c);
      }
    }
  }

  // Setting a path below o keeps the tree, the objects before o and every object apart from o.
  lemma {:induction false} SetInFrame(h: Store, o: nat, parts: seq<string>, text: string)
    requires Tree(h) && o < |h| && |parts| > 0
    ensures var t := SetIn(h, o, parts, text);
      && Tree(t) && |h| <= |t| && (forall i :: 0 <= i < o ==> t[i] == h[i])
      && (forall d: nat :: d < |h| && Apart(h, d, o) ==> FieldsOf(t, d) == FieldsOf(h, d))
    decreases |parts|
  {
    var t := SetIn(h, o, parts, text);
    if |parts| == 1 {
      LeafKeeps(h, o, parts[0], text);
      forall d: nat | d < |h| && Apart(h, d, o) ensures FieldsOf(t, d) == FieldsOf(h, d) { Untouched(h, t, o, d); }
    } else if parts[0] in h[o] && h[o][parts[0]].Ref? {
      var c := h[o][parts[0]].child;
      assert Holds(h, o, parts[0], c);
      SetInFrame(h, c, parts[1..], text);
      forall d: nat | d < |h| && Apart(h, d, o) ensures FieldsOf(t, d) == FieldsOf(h, d) {
        ApartFromChild(h, d, o, parts[0], c);
      }
    } else {
      var u := h[o := h[o][parts[0] := Ref(|h|)]] + [map[]];
      AllocateKeeps(h, o, parts[0]);
      SetInFrame(u, |h|, parts[1..], text);
      forall d: nat | d < |h| && Apart(h, d, o) ensures FieldsOf(t, d) == FieldsOf(h, d) {
        Untouched(h, u, o, d);
        if Reaches(u, d, |h|) {
          assert Holds(u, o, parts[0], |h|);
          ThroughParent(u, d, o, parts[0], |h|);
        }
        if Reaches(u, |h|, d) { ReachesDown(u, |h|, d); }
      }
    }
  }

  lemma ApartFromChild(h: Store, d: nat, o: nat, k: string, c: nat)
    requires Tree(h) && d < |h| && o < |h| && c < |h| && Apart(h, d, o) && Holds(h, o, k, c)
    ensures Apart(h, d, c)
  {
    if Reaches(h, d, c) {
      assert Reaches(h, o, c) by { assert Reaches(h, c, c); }
      if d != c { ThroughParent(h, d, o, k, c); }
    }
  }

  lemma SiblingsApart(h: Store, o: nat, k: string, c: nat, l: string, d: nat)
    requires Tree(h) && Holds(h, o, k, c) && Holds(h, o, l, d) && k != l
    ensures Apart(h, d, c)
  {
    assert c != d;
    if Reaches(h, d, c) {
      ThroughParent(h, d, o, k, c);
      ReachesDown(h, d, o);
    }
    if Reaches(h, c, d) {
      ThroughParent(h, c, o, l, d);
      ReachesDown(h, c, o);
    }
  }

  // Descending by reference and writing one field has the effect of Set on the tree below o.
  lemma {:induction false} SetInIsSet(h: Store, o: nat, parts: seq<string>, text: string)
    requires Tree(h) && o < |h| && |parts| > 0
    ensures var t := SetIn(h, o, parts, text);
      Tree(t) && |h| <= |t| && FieldsOf(t, o) == Set(FieldsOf(h, o), parts, Scalar(text))
    decreases |parts|
  {
    var t := SetIn(h, o, parts, text);
    SetInFrame(h, o, parts, text);
    if |parts| == 1 {
      forall k | k in h[o] && k != parts[0] ensures SlotValue(t, o, k) == SlotValue(h, o, k) {
        if h[o][k].Ref? { OtherField(h, t, o, k); }
      }
      assert FieldsOf(t, o) == Set(FieldsOf(h, o), parts, Scalar(text));
    } else if parts[0] in h[o] && h[o][parts[0]].Ref? {
      var c := h[o][parts[0]].child;
      assert Holds(h, o, parts[0], c);
      SetInIsSet(h, c, parts[1..], text);
      SetInFrame(h, c, parts[1..], text);
      assert t[o] == h[o];
      forall k | k in h[o] && k != parts[0] ensures SlotValue(t, o, k) == SlotValue(h, o, k) {
        if h[o][k].Ref? {
          assert Holds(h, o, k, h[o][k].child);
          SiblingsApart(h, o, parts[0], c, k, h[o][k].child);
        }
      }
      assert FieldsOf(t, o) == Set(FieldsOf(h, o), parts, Scalar(text));
    } else {
      var u := h[o := h[o][parts[0] := Ref(|h|)]] + [map[]];
      AllocateKeeps(h, o, parts[0]);
      assert FieldsOf(u, |h|) == map[];
      SetInIsSet(u, |h|, parts[1..], text);
      SetInFrame(u, |h|, parts[1..], text);
      assert t[o] == u[o] && Holds(u, o, parts[0], |h|);
      forall k | k in h[o] && k != parts[0] ensures SlotValue(t, o, k) == SlotValue(h, o, k) {
        if h[o][k].Ref? {
          var d := h[o][k].child;
          assert Holds(h, o, k, d) && Holds(u, o, k, d);
          if Reaches(h, d, o) { ReachesDown(h, d, o); }
          Untouched(h, u, o, d);
          SiblingsApart(u, o, parts[0], |h|, k, d);
        }
      }
      assert FieldsOf(t, o) == Set(FieldsOf(h, o), parts, Scalar(text));
    }
  }

  // A child under another field is not touched by writing a leaf of o.
  lemma OtherField(h: Store, t: Store, o: nat, k: string)
    requires Tree(h) && Tree(t) && |t| == |h| && o < |h| && k in h[o] && k in t[o] && t[o][k] == h[o][k] && h[o][k].Ref?
    requires forall i :: 0 <= i < |h| && i != o ==> t[i] == h[i]
    ensures SlotValue(t, o, k) == SlotValue(h, o, k)
  {
    var d := h[o][k].child;
    assert Holds(h, o, k, d) && Holds(t, o, k, d);
    if Reaches(h, d, o) { ReachesDown(h, d, o); }
    Untouched(h, t, o, d);
  }
}
