/**
 * The deep merge that folds discovery answers together (`mergeResponse`,
 * `mergeResponseArray`). The functions are the specification; the methods
 * below them follow the source's loops and are proved to compute the same
 * values.
 */
module Merge {
  import opened Wrappers
  import opened Json

  const OBJ_ID_KEY := "objnam"

  /** `item[OBJ_ID_KEY]`. */
  function ObjnamOf(item: Value): Option<Value> {
    Get(item, OBJ_ID_KEY)
  }

  /** `targetItem[OBJ_ID_KEY] === itemToAdd[OBJ_ID_KEY]`. */
  predicate SameObjnam(targetItem: Value, itemToAdd: Value) {
    SameOptional(ObjnamOf(targetItem), ObjnamOf(itemToAdd))
  }

  /** `target.find(...)`: the position of the first target item whose objnam matches. */
  function FindMatch(target: seq<Value>, item: Value): (k: Option<nat>)
    ensures k.Some? ==> k.value < |target| && SameObjnam(target[k.value], item)
    ensures k.Some? ==> forall j :: 0 <= j < k.value ==> !SameObjnam(target[j], item)
    ensures k.None? ==> forall j :: 0 <= j < |target| ==> !SameObjnam(target[j], item)
  {
    if target == [] then None
    else if SameObjnam(target[0], item) then Some(0)
    else match FindMatch(target[1..], item)
      case None => None
      case Some(j) => Some(j + 1)
  }

  /**
   * `mergeResponse(target, add)`: every own key of an object addition is
   * merged into the target; two arrays are merged position by position (a
   * for-in loop over an array visits its indices).
   */
  function Merged(target: Value, add: Value): Value
    decreases add, 0
  {
    match (target, add)
    case (Obj(tf), Obj(af)) =>
      Obj(map k | k in tf.Keys + af.Keys ::
            if k in af then MergedKey(if k in tf then Some(tf[k]) else None, af[k]) else tf[k])
    case (Arr(ti), Arr(ai)) => Arr(MergedIndexed(ti, ai))
    case _ => target
  }

  /**
   * The body of the for-in loop for one key: recurse when both values are
   * non-empty objects (the array merge when both are arrays), otherwise take
   * the added value.
   */
  function MergedKey(current: Option<Value>, added: Value): Value
    decreases added, 1
  {
    if Truthy(current) && IsObject(current) && IsObject(Some(added)) then
      if current.value.Arr? && added.Arr? then Arr(MergedArray(current.value.items, added.items))
      else Merged(current.value, added)
    else added
  }

  /** The for-in loop over the indices of an added array. */
  function MergedIndexed(target: seq<Value>, add: seq<Value>): seq<Value>
    decreases add
  {
    if add == [] then target
    else
      var done := MergedIndexed(target, add[..|add| - 1]);
      var i := |add| - 1;
      if i < |done| then done[i := MergedKey(Some(done[i]), add[i])]
      else done + [MergedKey(None, add[i])]
  }

  /** `mergeResponseArray(target, add)`: the added items are processed in order. */
  function MergedArray(target: seq<Value>, add: seq<Value>): seq<Value>
    decreases add
  {
    if add == [] then target
    else MergedItem(MergedArray(target, add[..|add| - 1]), add[|add| - 1])
  }

  /** One iteration of the forEach in `mergeResponseArray`. */
  function MergedItem(target: seq<Value>, item: Value): seq<Value>
    decreases item, 2
  {
    match FindMatch(target, item)
    case Some(j) =>
      if IsTruthy(target[j]) then target[j := Merged(target[j], item)] else target + [item]
    case None => target + [item]
  }

  // ---------------------------------------------------------------------
  // When the merge throws

  /**
   * `target.find(...)` throws: its test reads `targetItem[OBJ_ID_KEY]` and
   * `itemToAdd[OBJ_ID_KEY]`, so it throws at the first null target item it
   * reaches, and for a null item to add as soon as the target is non-empty.
   */
  predicate FindThrows(target: seq<Value>, item: Value)
    decreases |target|
  {
    target != [] && (target[0].Null? || item.Null? || (!SameObjnam(target[0], item) && FindThrows(target[1..], item)))
  }

  /** `mergeResponse(target, add)` throws: some added key's merge throws. */
  predicate MergeThrows(target: Value, add: Value)
    decreases add, 0
  {
    match (target, add)
    case (Obj(tf), Obj(af)) => exists k :: k in af && KeyThrows(if k in tf then Some(tf[k]) else None, af[k])
    case (Arr(ti), Arr(ai)) => IndexedThrows(ti, ai)
    case _ => false
  }

  /** The merge of one key throws: only a recursive merge can. */
  predicate KeyThrows(current: Option<Value>, added: Value)
    decreases added, 1
  {
    Truthy(current) && IsObject(current) && IsObject(Some(added)) &&
    if current.value.Arr? && added.Arr? then ArrayThrows(current.value.items, added.items)
    else MergeThrows(current.value, added)
  }

  /** The for-in loop over an added array's indices throws at some index. */
  predicate IndexedThrows(target: seq<Value>, add: seq<Value>)
    decreases add
  {
    add != [] &&
    (IndexedThrows(target, add[..|add| - 1]) ||
     var done := MergedIndexed(target, add[..|add| - 1]);
     var i := |add| - 1;
     KeyThrows(if i < |done| then Some(done[i]) else None, add[i]))
  }

  /** `mergeResponseArray` throws at some item, on the target as the items before it left it. */
  predicate ArrayThrows(target: seq<Value>, add: seq<Value>)
    decreases add
  {
    add != [] &&
    (ArrayThrows(target, add[..|add| - 1]) || ItemThrows(MergedArray(target, add[..|add| - 1]), add[|add| - 1]))
  }

  /** One item of `mergeResponseArray` throws: in `find`, or in the merge into its match. */
  predicate ItemThrows(target: seq<Value>, item: Value)
    decreases item, 2
  {
    FindThrows(target, item) ||
    match FindMatch(target, item)
    case Some(j) => IsTruthy(target[j]) && MergeThrows(target[j], item)
    case None => false
  }

  /**
   * `find` throws exactly when the target is non-empty and the item to add
   * is null, or a null target item comes before any match.
   */
  lemma {:induction false} FindThrowsExactly(target: seq<Value>, item: Value)
    ensures FindThrows(target, item) <==>
      target != [] && (item.Null? ||
        exists i :: 0 <= i < |target| && target[i].Null? && forall j :: 0 <= j < i ==> !SameObjnam(target[j], item))
    decreases |target|
  {
    if target != [] && !item.Null? && !target[0].Null? {
      var rest := target[1..];
      FindThrowsExactly(rest, item);
      if FindThrows(target, item) {
        var i :| 0 <= i < |rest| && rest[i].Null? && forall j :: 0 <= j < i ==> !SameObjnam(rest[j], item);
        assert target[i + 1].Null? && forall j :: 0 <= j < i + 1 ==> !SameObjnam(target[j], item);
      } else {
        forall i | 0 < i < |target| && forall j :: 0 <= j < i ==> !SameObjnam(target[j], item)
          ensures !target[i].Null?
        {
          assert forall j :: 0 <= j < i - 1 ==> !SameObjnam(rest[j], item) by {
            forall j | 0 <= j < i - 1 ensures !SameObjnam(rest[j], item) { assert rest[j] == target[j + 1]; }
          }
        }
      }
    }
  }

  /** A throw among the first `n` added items is a throw of the whole array merge. */
  lemma {:induction false} ArrayThrowsPrefix(target: seq<Value>, add: seq<Value>, n: nat)
    requires n <= |add| && ArrayThrows(target, add[..n])
    ensures ArrayThrows(target, add)
    decreases |add| - n
  {
    if n < |add| {
      assert add[..n + 1][..n] == add[..n];
      ArrayThrowsPrefix(target, add, n + 1);
    } else {
      assert add[..n] == add;
    }
  }

  /** A throw at one of the first `n` indices is a throw of the whole for-in loop. */
  lemma {:induction false} IndexedThrowsPrefix(target: seq<Value>, add: seq<Value>, n: nat)
    requires n <= |add| && IndexedThrows(target, add[..n])
    ensures IndexedThrows(target, add)
    decreases |add| - n
  {
    if n < |add| {
      assert add[..n + 1][..n] == add[..n];
      IndexedThrowsPrefix(target, add, n + 1);
    } else {
      assert add[..n] == add;
    }
  }

  /**
   * A target array holding a null item before the match makes the merge of
   * an object below the top level throw, where a merge that read a null
   * item as one without objnam would append the added item.
   */
  lemma NullTargetItemThrows()
    ensures var added := Obj(map[OBJ_ID_KEY := Str("C1")]);
      MergeThrows(Obj(map["objects" := Arr([Null])]), Obj(map["objects" := Arr([added])])) &&
      MergedArray([Null], [added]) == [Null, added]
  {
    var added := Obj(map[OBJ_ID_KEY := Str("C1")]);
    assert [added][..0] == [];
    assert ItemThrows([Null], added);
    assert ArrayThrows([Null], [added]);
    var tf, af := map["objects" := Arr([Null])], map["objects" := Arr([added])];
    assert KeyThrows(if "objects" in tf then Some(tf["objects"]) else None, af["objects"]);
  }

  // ---------------------------------------------------------------------
  // Properties of the merge

  lemma StrictEqualsIsEquality(a: Value, b: Value)
    requires StrictEquals(a, b)
    ensures a == b
  {
  }

  lemma SameObjnamSymmetric(a: Value, b: Value)
    ensures SameObjnam(a, b) <==> SameObjnam(b, a)
  {
  }

  lemma SameObjnamTransitive(a: Value, b: Value, c: Value)
    requires SameObjnam(a, b) && SameObjnam(b, c)
    ensures SameObjnam(a, c)
  {
  }

  /** Merging an item into a target item with the same objnam keeps the objnam. */
  lemma MergedKeepsObjnam(target: Value, add: Value)
    requires SameObjnam(target, add)
    ensures ObjnamOf(Merged(target, add)) == ObjnamOf(target)
  {
    if target.Obj? && add.Obj? && ObjnamOf(target).Some? {
      StrictEqualsIsEquality(ObjnamOf(target).value, ObjnamOf(add).value);
    }
  }

  /**
   * The array merge never removes or reorders target items: the result is at
   * least as long, and position i still holds the item with the objnam of
   * target[i].
   */
  lemma {:induction false} MergedArrayKeepsTarget(target: seq<Value>, add: seq<Value>)
    ensures |MergedArray(target, add)| >= |target|
    ensures forall i :: 0 <= i < |target| ==> ObjnamOf(MergedArray(target, add)[i]) == ObjnamOf(target[i])
  {
    if add != [] {
      var before := MergedArray(target, add[..|add| - 1]);
      MergedArrayKeepsTarget(target, add[..|add| - 1]);
      var item := add[|add| - 1];
      match FindMatch(before, item)
      case Some(j) =>
        if IsTruthy(before[j]) {
          MergedKeepsObjnam(before[j], item);
        }
      case None =>
    }
  }

  /** An item the bridge can key: its objnam is present and equal to itself (not NaN, not an object). */
  predicate Identified(item: Value) {
    ObjnamOf(item).Some? && StrictEquals(ObjnamOf(item).value, ObjnamOf(item).value)
  }

  /** Every item is identified and no two items share an objnam. */
  predicate DistinctIds(items: seq<Value>) {
    (forall i :: 0 <= i < |items| ==> Identified(items[i]))
    && forall i, j :: 0 <= i < j < |items| ==> !SameObjnam(items[i], items[j])
  }

  /** The added items that match no target item, in their order. */
  function Unmatched(target: seq<Value>, add: seq<Value>): seq<Value> {
    if add == [] then []
    else
      Unmatched(target, add[..|add| - 1])
        + (if FindMatch(target, add[|add| - 1]).None? then [add[|add| - 1]] else [])
  }

  /** What happens to one target item: merged with the added item of the same objnam, if there is one. */
  function MergedTargetItem(item: Value, add: seq<Value>): Value {
    match FindMatch(add, item)
    case None => item
    case Some(j) => Merged(item, add[j])
  }

  lemma {:induction false} UnmatchedFrom(target: seq<Value>, add: seq<Value>)
    ensures forall x :: x in Unmatched(target, add) ==> x in add
  {
    if add != [] {
      UnmatchedFrom(target, add[..|add| - 1]);
    }
  }

  lemma {:induction false} FindMatchSnoc(s: seq<Value>, x: Value, item: Value)
    ensures FindMatch(s + [x], item) ==
      if FindMatch(s, item).Some? then FindMatch(s, item)
      else if SameObjnam(x, item) then Some(|s|) else None
    decreases |s|
  {
    if s == [] {
      assert [x][1..] == [];
    } else {
      assert (s + [x])[0] == s[0];
      assert (s + [x])[1..] == s[1..] + [x];
      FindMatchSnoc(s[1..], x, item);
    }
  }

  lemma MergedTargetItemSnoc(item: Value, prior: seq<Value>, x: Value)
    ensures MergedTargetItem(item, prior + [x]) ==
      if FindMatch(prior, item).Some? then MergedTargetItem(item, prior)
      else if SameObjnam(x, item) then Merged(item, x) else item
  {
    FindMatchSnoc(prior, x, item);
    if FindMatch(prior, item).Some? {
      assert (prior + [x])[FindMatch(prior, item).value] == prior[FindMatch(prior, item).value];
    } else if SameObjnam(x, item) {
      assert (prior + [x])[|prior|] == x;
    }
  }

  lemma UnmatchedSnoc(target: seq<Value>, prior: seq<Value>, x: Value)
    ensures Unmatched(target, prior + [x]) ==
      Unmatched(target, prior) + (if FindMatch(target, x).None? then [x] else [])
  {
    assert (prior + [x])[..|prior|] == prior;
  }

  /** Two items of a sequence with distinct objnams that both match a third item are the same position. */
  lemma MatchIsUnique(items: seq<Value>, i: nat, j: nat, probe: Value)
    requires DistinctIds(items) && i < |items| && j < |items|
    requires SameObjnam(items[i], probe) && SameObjnam(items[j], probe)
    ensures i == j
  {
    if i != j {
      SameObjnamSymmetric(items[j], probe);
      SameObjnamTransitive(items[i], probe, items[j]);
      if j < i {
        SameObjnamSymmetric(items[i], items[j]);
      }
    }
  }

  /** The appended part of a partial result holds earlier added items, none of which matches the next one. */
  lemma AppendedDoNotMatch(target: seq<Value>, prior: seq<Value>, x: Value, before: seq<Value>)
    requires DistinctIds(prior + [x])
    requires |target| <= |before| && before[|target|..] == Unmatched(target, prior)
    ensures forall i :: |target| <= i < |before| ==> !SameObjnam(before[i], x)
  {
    var add := prior + [x];
    var appended := Unmatched(target, prior);
    UnmatchedFrom(target, prior);
    forall i | |target| <= i < |before|
      ensures !SameObjnam(before[i], x)
    {
      var y := before[i];
      assert y == appended[i - |target|];
      assert y in appended;
      assert y in prior;
      var k :| 0 <= k < |prior| && prior[k] == y;
      assert add[k] == y && add[|prior|] == x;
      DistinctAt(add, k, |prior|);
    }
  }

  lemma DistinctAt(items: seq<Value>, i: nat, j: nat)
    requires DistinctIds(items) && i < j < |items|
    ensures !SameObjnam(items[i], items[j])
  {
  }

  /** On the target part, a partial result carries the target's objnams. */
  lemma TargetPartMatchesLikeTarget(target: seq<Value>, prior: seq<Value>, x: Value, before: seq<Value>)
    requires |target| <= |before|
    requires forall i :: 0 <= i < |target| ==> before[i] == MergedTargetItem(target[i], prior)
    ensures forall i :: 0 <= i < |target| ==> (SameObjnam(before[i], x) <==> SameObjnam(target[i], x))
  {
    forall i | 0 <= i < |target|
      ensures SameObjnam(before[i], x) <==> SameObjnam(target[i], x)
    {
      if FindMatch(prior, target[i]).Some? {
        var j := FindMatch(prior, target[i]).value;
        SameObjnamSymmetric(prior[j], target[i]);
        MergedKeepsObjnam(target[i], prior[j]);
      }
    }
  }

  /** While the addition is being processed, the next added item finds the same match in the partial result as in the original target. */
  lemma PartialMatchesLikeTarget(target: seq<Value>, prior: seq<Value>, x: Value, before: seq<Value>)
    requires DistinctIds(prior + [x])
    requires |before| == |target| + |Unmatched(target, prior)|
    requires before[|target|..] == Unmatched(target, prior)
    requires forall i :: 0 <= i < |target| ==> before[i] == MergedTargetItem(target[i], prior)
    ensures FindMatch(before, x) == FindMatch(target, x)
  {
    AppendedDoNotMatch(target, prior, x, before);
    TargetPartMatchesLikeTarget(target, prior, x, before);
    FindMatchAcross(before, |target|, target, x);
  }

  /** One added item preserves the keyed description of the merge. */
  lemma KeyedStep(target: seq<Value>, prior: seq<Value>, x: Value, before: seq<Value>)
    requires DistinctIds(target) && DistinctIds(prior + [x])
    requires |before| == |target| + |Unmatched(target, prior)|
    requires before[|target|..] == Unmatched(target, prior)
    requires forall i :: 0 <= i < |target| ==> before[i] == MergedTargetItem(target[i], prior)
    ensures |MergedItem(before, x)| == |target| + |Unmatched(target, prior + [x])|
    ensures MergedItem(before, x)[|target|..] == Unmatched(target, prior + [x])
    ensures forall i :: 0 <= i < |target| ==> MergedItem(before, x)[i] == MergedTargetItem(target[i], prior + [x])
  {
    PartialMatchesLikeTarget(target, prior, x, before);
    UnmatchedSnoc(target, prior, x);
    if FindMatch(target, x).None? {
      KeyedStepNew(target, prior, x, before);
    } else {
      KeyedStepMatched(target, prior, x, before, FindMatch(target, x).value);
    }
  }

  /** An added item that matches no target item is appended; the target part is unchanged. */
  lemma KeyedStepNew(target: seq<Value>, prior: seq<Value>, x: Value, before: seq<Value>)
    requires |before| == |target| + |Unmatched(target, prior)|
    requires FindMatch(before, x).None? && FindMatch(target, x).None?
    requires forall i :: 0 <= i < |target| ==> before[i] == MergedTargetItem(target[i], prior)
    ensures MergedItem(before, x) == before + [x]
    ensures forall i :: 0 <= i < |target| ==> MergedItem(before, x)[i] == MergedTargetItem(target[i], prior + [x])
  {
    forall i | 0 <= i < |target|
      ensures MergedItem(before, x)[i] == MergedTargetItem(target[i], prior + [x])
    {
      SameObjnamSymmetric(x, target[i]);
      MergedTargetItemSnoc(target[i], prior, x);
    }
  }

  /** An added item that matches target item `j` is merged into it in place; nothing else changes. */
  lemma KeyedStepMatched(target: seq<Value>, prior: seq<Value>, x: Value, before: seq<Value>, j: nat)
    requires DistinctIds(target) && DistinctIds(prior + [x])
    requires |before| == |target| + |Unmatched(target, prior)|
    requires FindMatch(before, x) == Some(j) && FindMatch(target, x) == Some(j)
    requires forall i :: 0 <= i < |target| ==> before[i] == MergedTargetItem(target[i], prior)
    ensures MergedItem(before, x) == before[j := Merged(target[j], x)]
    ensures forall i :: 0 <= i < |target| ==> MergedItem(before, x)[i] == MergedTargetItem(target[i], prior + [x])
  {
    var add := prior + [x];
    assert FindMatch(prior, target[j]).None? by {
      if FindMatch(prior, target[j]).Some? {
        var k := FindMatch(prior, target[j]).value;
        assert add[k] == prior[k] && add[|prior|] == x;
        SameObjnamSymmetric(x, target[j]);
        MatchIsUnique(add, k, |prior|, target[j]);
      }
    }
    assert before[j] == target[j];
    assert IsTruthy(before[j]);
    var after := MergedItem(before, x);
    forall i | 0 <= i < |target|
      ensures after[i] == MergedTargetItem(target[i], add)
    {
      MergedTargetItemSnoc(target[i], prior, x);
      SameObjnamSymmetric(x, target[i]);
      if i != j && SameObjnam(target[i], x) {
        MatchIsUnique(target, i, j, x);
      }
    }
  }

  /**
   * When the target and the addition each carry distinct objnams, the array
   * merge is keyed by objnam: every target item is merged with the added item
   * of the same objnam (or left alone), in place, and the added items that
   * match no target item are appended in their order.
   */
  lemma {:induction false} MergedArrayKeyed(target: seq<Value>, add: seq<Value>)
    requires DistinctIds(target) && DistinctIds(add)
    ensures |MergedArray(target, add)| == |target| + |Unmatched(target, add)|
    ensures MergedArray(target, add)[|target|..] == Unmatched(target, add)
    ensures forall i :: 0 <= i < |target| ==> MergedArray(target, add)[i] == MergedTargetItem(target[i], add)
  {
    if add == [] {
    } else {
      var n := |add| - 1;
      var prior, x := add[..n], add[n];
      assert add == prior + [x];
      assert DistinctIds(prior);
      MergedArrayKeyed(target, prior);
      KeyedStep(target, prior, x, MergedArray(target, prior));
    }
  }

  /** A search that finds nothing past position m finds the same as a search of a sequence agreeing up to m. */
  lemma FindMatchAcross(s: seq<Value>, m: nat, t: seq<Value>, item: Value)
    requires m == |t| <= |s|
    requires forall i :: 0 <= i < m ==> (SameObjnam(s[i], item) <==> SameObjnam(t[i], item))
    requires forall i :: m <= i < |s| ==> !SameObjnam(s[i], item)
    ensures FindMatch(s, item) == FindMatch(t, item)
  {
    if FindMatch(t, item).Some? {
      var j := FindMatch(t, item).value;
      assert SameObjnam(s[j], item);
      assert forall i :: 0 <= i < j ==> !SameObjnam(s[i], item);
      FirstMatch(s, j, item);
    } else {
      assert forall i :: 0 <= i < |s| ==> !SameObjnam(s[i], item);
    }
  }

  /** A match with no match before it is the one found. */
  lemma FirstMatch(s: seq<Value>, j: nat, item: Value)
    requires j < |s| && SameObjnam(s[j], item)
    requires forall i :: 0 <= i < j ==> !SameObjnam(s[i], item)
    ensures FindMatch(s, item) == Some(j)
  {
  }

  /** Merging the first answer into an empty array yields the answer, position by position. */
  lemma {:induction false} MergedIndexedIntoEmpty(add: seq<Value>)
    ensures MergedIndexed([], add) == add
  {
    if add != [] {
      MergedIndexedIntoEmpty(add[..|add| - 1]);
      assert add[..|add| - 1] + [add[|add| - 1]] == add;
    }
  }

  lemma {:induction false} UnmatchedOfEmpty(add: seq<Value>)
    ensures Unmatched([], add) == add
  {
    if add != [] {
      UnmatchedOfEmpty(add[..|add| - 1]);
      assert add[..|add| - 1] + [add[|add| - 1]] == add;
    }
  }

  /** Keyed merging into an empty list yields the added items. */
  lemma MergedArrayIntoEmpty(add: seq<Value>)
    requires DistinctIds(add)
    ensures MergedArray([], add) == add
  {
    MergedArrayKeyed([], add);
    UnmatchedOfEmpty(add);
  }

  lemma {:induction false} UnmatchedAll(target: seq<Value>, add: seq<Value>)
    requires forall i :: 0 <= i < |add| ==> FindMatch(target, add[i]).None?
    ensures Unmatched(target, add) == add
  {
    if add != [] {
      UnmatchedAll(target, add[..|add| - 1]);
      assert add[..|add| - 1] + [add[|add| - 1]] == add;
    }
  }

  /** Merging lists whose objnams are disjoint is concatenation. */
  lemma MergedArrayDisjoint(target: seq<Value>, add: seq<Value>)
    requires DistinctIds(target) && DistinctIds(add)
    requires forall i, j :: 0 <= i < |target| && 0 <= j < |add| ==> !SameObjnam(target[i], add[j])
    ensures MergedArray(target, add) == target + add
  {
    forall i | 0 <= i < |add| ensures FindMatch(target, add[i]).None? {
      NoMatchFor(target, add[i]);
    }
    UnmatchedAll(target, add);
    MergedArrayKeyed(target, add);
    var r := MergedArray(target, add);
    forall i | 0 <= i < |target| ensures r[i] == target[i] {
      NoMatchIn(add, target[i]);
    }
    ConcatenationAt(r, target, add);
  }

  /** An added item no target item shares an objnam with finds no match. */
  lemma NoMatchFor(target: seq<Value>, item: Value)
    requires forall i :: 0 <= i < |target| ==> !SameObjnam(target[i], item)
    ensures FindMatch(target, item).None?
  {
  }

  /** A sequence that starts with `a` and continues with `b` is `a + b`. */
  lemma ConcatenationAt(r: seq<Value>, a: seq<Value>, b: seq<Value>)
    requires |r| == |a| + |b| && r[|a|..] == b
    requires forall i :: 0 <= i < |a| ==> r[i] == a[i]
    ensures r == a + b
  {
    assert r[..|a|] == a;
    assert r == r[..|a|] + r[|a|..];
  }

  /** An item whose objnam no added item shares is left as it is. */
  lemma NoMatchIn(add: seq<Value>, item: Value)
    requires forall j :: 0 <= j < |add| ==> !SameObjnam(item, add[j])
    ensures MergedTargetItem(item, add) == item
  {
    if FindMatch(add, item).Some? {
      var j := FindMatch(add, item).value;
      SameObjnamSymmetric(add[j], item);
    }
  }

  /**
   * Merging objects, key by key: keys only in the target keep their values;
   * an added key whose old and new values are both non-empty objects is
   * merged recursively (the array merge for two arrays); any other added key
   * takes the added value.
   */
  lemma MergedObjects(tf: map<string, Value>, af: map<string, Value>)
    ensures Merged(Obj(tf), Obj(af)).Obj?
    ensures Merged(Obj(tf), Obj(af)).fields.Keys == tf.Keys + af.Keys
    ensures forall k :: k in tf && k !in af ==> Merged(Obj(tf), Obj(af)).fields[k] == tf[k]
    ensures forall k :: k in af && k in tf && IsObject(Some(tf[k])) && IsObject(Some(af[k])) ==>
      Merged(Obj(tf), Obj(af)).fields[k] ==
        if tf[k].Arr? && af[k].Arr? then Arr(MergedArray(tf[k].items, af[k].items)) else Merged(tf[k], af[k])
    ensures forall k :: k in af && !(k in tf && IsObject(Some(tf[k])) && IsObject(Some(af[k]))) ==>
      Merged(Obj(tf), Obj(af)).fields[k] == af[k]
  {
  }

  // ---------------------------------------------------------------------
  // The source's loops

  /** `mergeResponse`: the for-in loop over the added keys (or indices); anything else adds nothing. */
  method MergeResponse(target: Value, add: Value) returns (merged: Value, threw: bool)
    ensures threw == MergeThrows(target, add)
    ensures !threw ==> merged == Merged(target, add)
    decreases add, 1
  {
    match (target, add) {
      case (Obj(tf), Obj(af)) =>
        var fields;
        fields, threw := MergeFields(tf, af);
        merged := Obj(fields);
      case (Arr(ti), Arr(ai)) =>
        var items;
        items, threw := MergeIndices(ti, ai);
        merged := Arr(items);
      case _ =>
        merged, threw := target, false;
    }
  }

  /** The for-in loop over the keys of an added object. */
  method MergeFields(tf: map<string, Value>, af: map<string, Value>) returns (fields: map<string, Value>, threw: bool)
    ensures threw == MergeThrows(Obj(tf), Obj(af))
    ensures !threw ==> Obj(fields) == Merged(Obj(tf), Obj(af))
    decreases Obj(af), 0
  {
    fields, threw := tf, false;
    var pending := af.Keys;
    while pending != {}
      invariant pending <= af.Keys
      invariant fields.Keys == tf.Keys + (af.Keys - pending)
      invariant forall k :: k in fields ==>
        fields[k] == if k in af && k !in pending then MergedKey(if k in tf then Some(tf[k]) else None, af[k]) else tf[k]
      invariant forall k :: k in af && k !in pending ==> !KeyThrows(if k in tf then Some(tf[k]) else None, af[k])
      decreases pending
    {
      var key :| key in pending;
      var value, keyThrew := MergeKey(if key in fields then Some(fields[key]) else None, af[key]);
      if keyThrew {
        return fields, true;
      }
      fields := fields[key := value];
      pending := pending - {key};
    }
    assert fields == map k | k in tf.Keys + af.Keys ::
      if k in af then MergedKey(if k in tf then Some(tf[k]) else None, af[k]) else tf[k];
  }

  /** The for-in loop over the indices of an added array. */
  method MergeIndices(ti: seq<Value>, ai: seq<Value>) returns (items: seq<Value>, threw: bool)
    ensures threw == IndexedThrows(ti, ai)
    ensures !threw ==> items == MergedIndexed(ti, ai)
    decreases Arr(ai), 0
  {
    items, threw := ti, false;
    for i := 0 to |ai|
      invariant items == MergedIndexed(ti, ai[..i])
      invariant !IndexedThrows(ti, ai[..i])
    {
      assert ai[..i + 1][..i] == ai[..i];
      var value, keyThrew := MergeKey(if i < |items| then Some(items[i]) else None, ai[i]);
      if keyThrew {
        IndexedThrowsPrefix(ti, ai, i + 1);
        return items, true;
      }
      if i < |items| {
        items := items[i := value];
      } else {
        items := items + [value];
      }
    }
    assert ai[..|ai|] == ai;
  }

  /** The test and the assignment made for one key of the for-in loop. */
  method MergeKey(current: Option<Value>, added: Value) returns (value: Value, threw: bool)
    ensures threw == KeyThrows(current, added)
    ensures !threw ==> value == MergedKey(current, added)
    decreases added, 2
  {
    if Truthy(current) && IsObject(current) && IsObject(Some(added)) {
      if current.value.Arr? && added.Arr? {
        var items;
        items, threw := MergeResponseArray(current.value.items, added.items);
        value := Arr(items);
      } else {
        value, threw := MergeResponse(current.value, added);
      }
    } else {
      value, threw := added, false;
    }
  }

  /** `mergeResponseArray`: find a target item with the same objnam; merge into it if truthy, else push. */
  method MergeResponseArray(target: seq<Value>, add: seq<Value>) returns (merged: seq<Value>, threw: bool)
    ensures threw == ArrayThrows(target, add)
    ensures !threw ==> merged == MergedArray(target, add)
    decreases add
  {
    merged, threw := target, false;
    for i := 0 to |add|
      invariant merged == MergedArray(target, add[..i])
      invariant !ArrayThrows(target, add[..i])
    {
      assert add[..i + 1][..i] == add[..i];
      var item := add[i];
      var j := 0;
      while j < |merged|
        invariant 0 <= j <= |merged|
        invariant forall k :: 0 <= k < j ==> !SameObjnam(merged[k], item)
        invariant FindThrows(merged, item) == FindThrows(merged[j..], item)
      {
        if merged[j].Null? || item.Null? {
          assert ItemThrows(merged, item);
          ArrayThrowsPrefix(target, add, i + 1);
          return merged, true;
        }
        if SameObjnam(merged[j], item) {
          break;
        }
        assert merged[j..][1..] == merged[j + 1..];
        j := j + 1;
      }
      assert !FindThrows(merged, item);
      assert j < |merged| ==> FindMatch(merged, item) == Some(j);
      assert j == |merged| ==> FindMatch(merged, item) == None;
      if j < |merged| && IsTruthy(merged[j]) {
        var m, itemThrew := MergeResponse(merged[j], item);
        if itemThrew {
          assert ItemThrows(merged, item);
          ArrayThrowsPrefix(target, add, i + 1);
          return merged, true;
        }
        merged := merged[j := m];
      } else {
        merged := merged + [item];
      }
    }
    assert add[..|add|] == add;
  }
}
