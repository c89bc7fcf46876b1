/**
 * The filter of the RemoveDisconnectedElements mutation, as functions of the
 * neuron lists: list 0 stays as it is, and every later list keeps, in order,
 * the neurons with an incoming synapse whose input neuron occurs in the
 * already filtered list before it. Occurrence is by object identity.
 */
module Pruning {
  import opened NetworkUtil
  import opened NeuronGraph

  /** `n` has an incoming synapse whose input neuron occurs in `previous`. */
  ghost predicate HasInputFrom(n: Neuron, previous: seq<Neuron>)
    reads n`incoming
  {
    exists k :: 0 <= k < |n.incoming| && n.incoming[k].inputNeuron in previous
  }

  /** The neurons of `layer` that have an input from `previous`, in their order in `layer`. */
  ghost function Connected(layer: seq<Neuron>, previous: seq<Neuron>): (r: seq<Neuron>)
    reads Members(layer)`incoming
    ensures |r| <= |layer|
  {
    if layer == [] then []
    else
      var rest := Connected(layer[..|layer| - 1], previous);
      var n := layer[|layer| - 1];
      if HasInputFrom(n, previous) then rest + [n] else rest
  }

  /**
   * The neuron lists after the filter: list 0 as it is, and each later list
   * reduced to Connected with the already reduced list before it.
   */
  ghost function Prune(lists: seq<seq<Neuron>>): (r: seq<seq<Neuron>>)
    reads NeuronsIn(lists)`incoming
    ensures |r| == |lists|
    ensures |lists| > 0 ==> r[0] == lists[0]
    decreases |lists|
  {
    if |lists| <= 1 then lists
    else
      PrefixIn(lists, |lists| - 1);
      MembersIn(lists, |lists| - 1);
      var p := Prune(lists[..|lists| - 1]);
      p + [Connected(lists[|lists| - 1], p[|p| - 1])]
  }

  /** The filter depends only on the incoming lists of the neurons it filters. */
  twostate lemma PruneKept(lists: seq<seq<Neuron>>)
    requires forall n | n in NeuronsIn(lists) :: n.incoming == old(n.incoming)
    ensures Prune(lists) == old(Prune(lists))
  {
  }

  /** Filtering the first k lists gives the first k filtered lists. */
  lemma {:induction false} PrunePrefix(lists: seq<seq<Neuron>>, k: int)
    requires 1 <= k <= |lists|
    ensures Prune(lists[..k]) == Prune(lists)[..k]
    decreases |lists|
  {
    if k < |lists| {
      var init := lists[..|lists| - 1];
      assert init[..k] == lists[..k];
      PrunePrefix(init, k);
    } else {
      assert lists[..k] == lists;
    }
  }

  /** List i > 0 after the filter: the neurons of list i with an input from filtered list i - 1. */
  lemma PruneAt(lists: seq<seq<Neuron>>, i: int)
    requires 0 < i < |lists|
    ensures Prune(lists)[i] == Connected(lists[i], Prune(lists)[i - 1])
  {
    var init := lists[..i + 1];
    PrunePrefix(lists, i + 1);
    PrunePrefix(lists, i);
    assert init[..i] == lists[..i];
    var p := Prune(init[..i]);
    assert Prune(init) == p + [Connected(init[i], p[i - 1])];
  }

  /** Membership in a filtered list, both ways. */
  lemma {:induction false} ConnectedMembers(layer: seq<Neuron>, previous: seq<Neuron>, n: Neuron)
    ensures n in Connected(layer, previous) <==> n in layer && HasInputFrom(n, previous)
  {
    if layer != [] {
      var init := layer[..|layer| - 1];
      ConnectedMembers(init, previous, n);
      assert layer == init + [layer[|layer| - 1]];
    }
  }

  /** `xs` keeps some of the elements of `ys`, in their order in `ys`. */
  ghost predicate IsSubsequence<T>(xs: seq<T>, ys: seq<T>)
    decreases |ys|
  {
    if xs == [] then true
    else if ys == [] then false
    else
      (xs[|xs| - 1] == ys[|ys| - 1] && IsSubsequence(xs[..|xs| - 1], ys[..|ys| - 1]))
      || IsSubsequence(xs, ys[..|ys| - 1])
  }

  /** The filter keeps the order of the list it filters. */
  lemma {:induction false} ConnectedSubsequence(layer: seq<Neuron>, previous: seq<Neuron>)
    ensures IsSubsequence(Connected(layer, previous), layer)
  {
    if layer != [] {
      var init := layer[..|layer| - 1];
      ConnectedSubsequence(init, previous);
      var rest := Connected(init, previous);
      if HasInputFrom(layer[|layer| - 1], previous) {
        var r := rest + [layer[|layer| - 1]];
        assert r[..|r| - 1] == rest;
      }
    }
  }

  /** Filtering a filtered list against the same list changes nothing. */
  lemma {:induction false} ConnectedIdempotent(layer: seq<Neuron>, previous: seq<Neuron>)
    ensures Connected(Connected(layer, previous), previous) == Connected(layer, previous)
  {
    if layer != [] {
      var init := layer[..|layer| - 1];
      ConnectedIdempotent(init, previous);
      var rest := Connected(init, previous);
      var n := layer[|layer| - 1];
      if HasInputFrom(n, previous) {
        var r := rest + [n];
        assert r[..|r| - 1] == rest;
      }
    }
  }

  /** The filter is idempotent. */
  lemma {:induction false} PruneIdempotent(lists: seq<seq<Neuron>>)
    ensures Prune(Prune(lists)) == Prune(lists)
    decreases |lists|
  {
    if |lists| > 1 {
      var init := lists[..|lists| - 1];
      var p := Prune(init);
      var last := Connected(lists[|lists| - 1], p[|p| - 1]);
      var r := p + [last];
      assert r[..|r| - 1] == p;
      PruneIdempotent(init);
      ConnectedIdempotent(lists[|lists| - 1], p[|p| - 1]);
    }
  }

  /** A list whose every neuron has an input from `previous` passes the filter whole. */
  lemma {:induction false} ConnectedAll(layer: seq<Neuron>, previous: seq<Neuron>)
    requires forall j :: 0 <= j < |layer| ==> HasInputFrom(layer[j], previous)
    ensures Connected(layer, previous) == layer
  {
    if layer != [] {
      var init := layer[..|layer| - 1];
      ConnectedAll(init, previous);
      assert layer == init + [layer[|layer| - 1]];
    }
  }

  /**
   * On lists whose adjacent lists are fully connected and of which every
   * list but the last is non-empty (a network as its constructor leaves it,
   * with non-empty layers) the filter removes nothing.
   */
  lemma {:induction false} PruneConnected(lists: seq<seq<Neuron>>)
    requires forall i :: 0 <= i < |lists| - 1 ==> Connects(lists[i], lists[i + 1])
    requires forall i :: 0 <= i < |lists| - 1 ==> |lists[i]| > 0
    ensures Prune(lists) == lists
    decreases |lists|
  {
    if |lists| > 1 {
      var init := lists[..|lists| - 1];
      var n := |lists| - 1;
      var src, dst := lists[n - 1], lists[n];
      assert Connects(src, dst);
      assert forall i :: 0 <= i < |init| - 1 ==> Connects(init[i], init[i + 1]);
      PruneConnected(init);
      assert Prune(lists) == Prune(init) + [Connected(dst, Prune(init)[n - 1])];
      forall k | 0 <= k < |dst|
        ensures HasInputFrom(dst[k], src)
      {
        assert dst[k].incoming[0] == src[0].outgoing[k];
      }
      ConnectedAll(dst, src);
      assert init + [dst] == lists;
    }
  }

  /**
   * Collects, in order, the neurons of `layer` that have an input from
   * `previous`, walking each neuron's incoming synapses up to the first whose
   * input neuron occurs in `previous`.
   */
  method ConnectedNeurons(layer: seq<Neuron>, previous: seq<Neuron>) returns (connected: seq<Neuron>)
    ensures connected == Connected(layer, previous)
  {
    connected := [];
    var i := 0;
    while i < |layer|
      invariant 0 <= i <= |layer|
      invariant connected == Connected(layer[..i], previous)
    {
      assert layer[..i + 1][..i] == layer[..i] && layer[..i + 1][i] == layer[i];
      assert Connected(layer[..i + 1], previous)
          == if HasInputFrom(layer[i], previous) then connected + [layer[i]] else connected;
      var neuron := layer[i];
      var isConnected := false;
      var k := 0;
      while k < |neuron.incoming|
        invariant 0 <= k <= |neuron.incoming|
        invariant !isConnected
        invariant forall m :: 0 <= m < k ==> neuron.incoming[m].inputNeuron !in previous
      {
        if neuron.incoming[k].inputNeuron in previous {
          isConnected := true;
          break;
        }
        k := k + 1;
      }
      assert isConnected <==> HasInputFrom(neuron, previous);
      if isConnected {
        connected := connected + [layer[i]];
      }
      i := i + 1;
    }
    assert layer[..i] == layer;
  }
}
