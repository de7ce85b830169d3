/**
 * A creature's `Limb` tree and the lookup of its signal senders (inputs and
 * neurons) and signal receivers (neurons and muscles) by a flat index that
 * runs through the limb's own nodes and then through each child's subtree.
 */
module Limbs {
  import opened Wrappers
  import opened Text

  /** `Limb`: its input senders (sensors and constants), its child limbs,
      its neurons and its muscles. `T` stands for a node of the signal graph. */
  datatype Limb<T> = Limb(inputs: seq<T>, children: seq<Limb<T>>, neurons: seq<T>, muscles: seq<T>)

  /** The senders (`GetInput`) or the receivers (`GetOutput`). */
  datatype Side = Senders | Receivers

  /** The limb's own nodes on a side: inputs then neurons, or neurons then muscles. */
  function Own<T>(l: Limb<T>, side: Side): seq<T> {
    if side == Senders then l.inputs + l.neurons else l.neurons + l.muscles
  }

  /** Every node on a side of the subtree, in the order the flat index runs:
      the limb's own, then each child's subtree in turn. */
  function Flat<T>(l: Limb<T>, side: Side): seq<T>
    decreases l
  {
    Own(l, side) + FlatAll(l.children, side)
  }

  function FlatAll<T>(cs: seq<Limb<T>>, side: Side): seq<T>
    decreases cs
  {
    if |cs| == 0 then [] else Flat(cs[0], side) + FlatAll(cs[1..], side)
  }

  lemma {:induction false} FlatAllAppend<T>(cs: seq<Limb<T>>, c: Limb<T>, side: Side)
    ensures FlatAll(cs + [c], side) == FlatAll(cs, side) + Flat(c, side)
  {
    if |cs| == 0 {
      assert FlatAll([c], side) == Flat(c, side) + FlatAll([c][1..], side);
    } else {
      assert (cs + [c])[0] == cs[0];
      assert (cs + [c])[1..] == cs[1..] + [c];
      FlatAllAppend(cs[1..], c, side);
    }
  }

  /** `GetInputCount`: the limb's inputs and neurons, plus each child's count. */
  method GetInputCount<T>(l: Limb<T>) returns (length: nat)
    ensures length == |Flat(l, Senders)|
    decreases l
  {
    length := |l.inputs| + |l.neurons|;
    var k := 0;
    while k < |l.children|
      invariant 0 <= k <= |l.children|
      invariant length == |l.inputs| + |l.neurons| + |FlatAll(l.children[..k], Senders)|
    {
      var n := GetInputCount(l.children[k]);
      assert l.children[..k + 1] == l.children[..k] + [l.children[k]];
      FlatAllAppend(l.children[..k], l.children[k], Senders);
      length := length + n;
      k := k + 1;
    }
    assert l.children[..k] == l.children;
  }

  /** What a recursive lookup hands back: the index left over, and the node
      found (C#'s `out` parameter, null when nothing was found). */
  datatype Found<T> = Found(residual: nat, item: Option<T>)

  /** `GetInputRecursive` / `GetOutputRecursive` as written: the children are
      searched in turn, and the search stops as soon as the index left over
      is 0, whether or not a node was found. */
  function LookupAsWritten<T>(l: Limb<T>, side: Side, index: nat): Found<T>
    decreases l
  {
    var own := Own(l, side);
    if index < |own| then Found(0, Some(own[index]))
    else LookupAllAsWritten(l.children, side, index - |own|)
  }

  function LookupAllAsWritten<T>(cs: seq<Limb<T>>, side: Side, index: nat): Found<T>
    decreases cs
  {
    if |cs| == 0 then Found(index, None)
    else
      var r := LookupAsWritten(cs[0], side, index);
      if r.residual == 0 then r else LookupAllAsWritten(cs[1..], side, r.residual)
  }

  /** The lookup as intended: the search stops when a node is found. */
  function Lookup<T>(l: Limb<T>, side: Side, index: nat): Found<T>
    decreases l
  {
    var own := Own(l, side);
    if index < |own| then Found(0, Some(own[index]))
    else LookupAll(l.children, side, index - |own|)
  }

  function LookupAll<T>(cs: seq<Limb<T>>, side: Side, index: nat): Found<T>
    decreases cs
  {
    if |cs| == 0 then Found(index, None)
    else
      var r := Lookup(cs[0], side, index);
      if r.item.Some? then r else LookupAll(cs[1..], side, r.residual)
  }

  /** The intended lookup finds the node at the flat index, or reports how far
      past the end the index lies. */
  lemma {:induction false} LookupFlat<T>(l: Limb<T>, side: Side, index: nat)
    ensures Lookup(l, side, index) ==
      if index < |Flat(l, side)| then Found(0, Some(Flat(l, side)[index]))
      else Found(index - |Flat(l, side)|, None)
    decreases l
  {
    var own := Own(l, side);
    if index >= |own| {
      LookupAllFlat(l.children, side, index - |own|);
    }
  }

  lemma {:induction false} LookupAllFlat<T>(cs: seq<Limb<T>>, side: Side, index: nat)
    ensures LookupAll(cs, side, index) ==
      if index < |FlatAll(cs, side)| then Found(0, Some(FlatAll(cs, side)[index]))
      else Found(index - |FlatAll(cs, side)|, None)
    decreases cs
  {
    if |cs| > 0 {
      LookupFlat(cs[0], side, index);
      var first := Flat(cs[0], side);
      if index >= |first| {
        LookupAllFlat(cs[1..], side, index - |first|);
      }
    }
  }

  /** The lookup as written agrees with the intended one, except that it may
      stop early with nothing found at an index that does have a node. */
  lemma {:induction false} AsWrittenAgrees<T>(l: Limb<T>, side: Side, index: nat)
    ensures LookupAsWritten(l, side, index) == Lookup(l, side, index) ||
            (LookupAsWritten(l, side, index) == Found(0, None) && index < |Flat(l, side)|)
    decreases l
  {
    var own := Own(l, side);
    if index >= |own| {
      AllAsWrittenAgrees(l.children, side, index - |own|);
    }
  }

  lemma {:induction false} AllAsWrittenAgrees<T>(cs: seq<Limb<T>>, side: Side, index: nat)
    ensures LookupAllAsWritten(cs, side, index) == LookupAll(cs, side, index) ||
            (LookupAllAsWritten(cs, side, index) == Found(0, None) && index < |FlatAll(cs, side)|)
    decreases cs
  {
    if |cs| > 0 {
      var first := Flat(cs[0], side);
      AsWrittenAgrees(cs[0], side, index);
      LookupFlat(cs[0], side, index);
      LookupAllFlat(cs[1..], side, 0);
      if index > |first| {
        AllAsWrittenAgrees(cs[1..], side, index - |first|);
      }
    }
  }

  /** `GetInputRecursive` (`Senders`) and `GetOutputRecursive` (`Receivers`)
      as written, with the `foreach` over the children. */
  method GetRecursiveAsWritten<T>(l: Limb<T>, side: Side, index: nat) returns (r: Found<T>)
    ensures r == LookupAsWritten(l, side, index)
    decreases l
  {
    var first := if side == Senders then l.inputs else l.neurons;
    var second := if side == Senders then l.neurons else l.muscles;
    if index < |first| + |second| {
      if index < |first| {
        return Found(0, Some(first[index]));
      }
      return Found(0, Some(second[index - |first|]));
    }
    var left: nat := index - (|first| + |second|);
    var k := 0;
    while k < |l.children|
      invariant 0 <= k <= |l.children|
      invariant LookupAllAsWritten(l.children, side, index - (|first| + |second|)) ==
                LookupAllAsWritten(l.children[k..], side, left)
    {
      assert l.children[k..][1..] == l.children[k + 1..];
      r := GetRecursiveAsWritten(l.children[k], side, left);
      if r.residual == 0 {
        return r;
      }
      left := r.residual;
      k := k + 1;
    }
    return Found(left, None);
  }

  /** The same search, stopping when a node is found. */
  method GetRecursive<T>(l: Limb<T>, side: Side, index: nat) returns (r: Found<T>)
    ensures r == Lookup(l, side, index)
    decreases l
  {
    var first := if side == Senders then l.inputs else l.neurons;
    var second := if side == Senders then l.neurons else l.muscles;
    if index < |first| + |second| {
      if index < |first| {
        return Found(0, Some(first[index]));
      }
      return Found(0, Some(second[index - |first|]));
    }
    var left: nat := index - (|first| + |second|);
    var k := 0;
    while k < |l.children|
      invariant 0 <= k <= |l.children|
      invariant LookupAll(l.children, side, index - (|first| + |second|)) == LookupAll(l.children[k..], side, left)
    {
      assert l.children[k..][1..] == l.children[k + 1..];
      r := GetRecursive(l.children[k], side, left);
      if r.item.Some? {
        return r;
      }
      left := r.residual;
      k := k + 1;
    }
    return Found(left, None);
  }

  /** The exception message; the index is printed from the null node, so it
      shows as empty. The output message keeps its misspelling. */
  function NotFound(side: Side, found: int): string {
    if side == Senders then "Could not find input at index . Only found " + IntToString(found) + " inputs."
    else "Could not find ooutput at index . Only found " + IntToString(found) + " outputs."
  }

  /** `GetInput` / `GetOutput` as written: an exception only when index is
      left over. */
  function GetAsWritten<T>(l: Limb<T>, side: Side, index: nat): Result<Option<T>, string> {
    var r := LookupAsWritten(l, side, index);
    if r.residual > 0 then Failure(NotFound(side, index - r.residual)) else Success(r.item)
  }

  /** As written, the exception fires only past one beyond the last node, and
      a node handed back is the right one; what goes wrong is a null. */
  lemma GetAsWrittenCases<T>(l: Limb<T>, side: Side, index: nat)
    ensures GetAsWritten(l, side, index).Failure? <==> index > |Flat(l, side)|
    ensures GetAsWritten(l, side, index).Failure? ==>
      GetAsWritten(l, side, index).error == NotFound(side, |Flat(l, side)|)
    ensures GetAsWritten(l, side, index) == Success(None) ==> index <= |Flat(l, side)|
    ensures forall x :: GetAsWritten(l, side, index) == Success(Some(x)) ==>
      index < |Flat(l, side)| && x == Flat(l, side)[index]
  {
    AsWrittenAgrees(l, side, index);
    LookupFlat(l, side, index);
  }

  /** Two one-input children: the second child's input, at flat index 1, is
      missed because the first child's search ends with 0 left over; and the
      index one past the end yields null instead of the exception. */
  lemma MissedSibling<T>(a: T, b: T)
    ensures var l := Limb([], [Limb([a], [], [], []), Limb([b], [], [], [])], [], []);
      Flat(l, Senders) == [a, b] &&
      GetAsWritten(l, Senders, 1) == Success(None) &&
      GetAsWritten(l, Senders, 2) == Success(None)
  {
    var c := Limb([a], [], [], []);
    var d := Limb([b], [], [], []);
    var l := Limb([], [c, d], [], []);
    assert Flat(c, Senders) == [a];
    assert Flat(d, Senders) == [b];
    assert FlatAll([d], Senders) == [b];
    assert [c, d][1..] == [d];
    assert Own(c, Senders) == [a] && Own(d, Senders) == [b];
    assert LookupAsWritten(c, Senders, 1) == Found(0, None);
    assert LookupAsWritten(c, Senders, 2) == Found(1, None);
    assert LookupAsWritten(d, Senders, 1) == Found(0, None);
    assert LookupAllAsWritten([c, d], Senders, 1) == Found(0, None);
    assert LookupAllAsWritten([d], Senders, 1) == Found(0, None);
    assert LookupAllAsWritten([c, d], Senders, 2) == Found(0, None);
  }

  /** `GetInput` (`Senders`) and `GetOutput` (`Receivers`) as intended: the
      node at the flat index, or the exception naming how many there are. */
  method Get<T>(l: Limb<T>, side: Side, index: nat) returns (r: Result<T, string>)
    ensures r.Success? <==> index < |Flat(l, side)|
    ensures r.Success? ==> r.value == Flat(l, side)[index]
    ensures r.Failure? ==> r.error == NotFound(side, |Flat(l, side)|)
  {
    var found := GetRecursive(l, side, index);
    LookupFlat(l, side, index);
    if found.item.None? {
      return Failure(NotFound(side, index - found.residual));
    }
    return Success(found.item.value);
  }
}
