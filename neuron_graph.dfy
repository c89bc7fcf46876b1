/**
 * The neuron graph of a network seen as the list of neuron lists of its
 * layers: which neurons it contains, which synapse lists they hold, and the
 * full connection the network constructor wires between adjacent layers.
 *
 * Every predicate reads only the synapse lists it looks at, so a change to a
 * weight, an activation kind or an unrelated list leaves it as it was.
 */
module NeuronGraph {
  import opened NetworkUtil

  /** The neurons that occur in `ns`. */
  ghost function Members(ns: seq<Neuron>): set<Neuron> {
    set n | n in ns
  }

  /** The neurons that occur in any list of `lists`. */
  ghost function NeuronsIn(lists: seq<seq<Neuron>>): set<Neuron> {
    set a, b | 0 <= a < |lists| && 0 <= b < |lists[a]| :: lists[a][b]
  }

  /** The members of list `a` of `lists` are neurons of `lists`. */
  lemma MembersIn(lists: seq<seq<Neuron>>, a: int)
    requires 0 <= a < |lists|
    ensures Members(lists[a]) <= NeuronsIn(lists)
  {
    forall n | n in Members(lists[a])
      ensures n in NeuronsIn(lists)
    {
      var b :| 0 <= b < |lists[a]| && lists[a][b] == n;
    }
  }

  /** The neurons of the first k lists are neurons of `lists`. */
  lemma PrefixIn(lists: seq<seq<Neuron>>, k: int)
    requires 0 <= k <= |lists|
    ensures NeuronsIn(lists[..k]) <= NeuronsIn(lists)
  {
    forall n | n in NeuronsIn(lists[..k])
      ensures n in NeuronsIn(lists)
    {
      var a, b :| 0 <= a < k && 0 <= b < |lists[..k][a]| && lists[..k][a][b] == n;
      assert lists[a][b] == n;
    }
  }

  /** No neuron appears twice in `ns`. */
  ghost predicate DistinctSeq(ns: seq<Neuron>) {
    forall a, b :: 0 <= a < b < |ns| ==> ns[a] != ns[b]
  }

  /** No neuron appears twice, in one list or across lists. */
  ghost predicate DistinctNeurons(lists: seq<seq<Neuron>>) {
    forall a, b, c, e ::
      (0 <= a < |lists| && 0 <= b < |lists[a]| && 0 <= c < |lists| && 0 <= e < |lists[c]| &&
       lists[a][b] == lists[c][e]) ==> a == c && b == e
  }

  ghost predicate NoIncoming(ns: seq<Neuron>)
    reads Members(ns)`incoming
  {
    forall j :: 0 <= j < |ns| ==> ns[j].incoming == []
  }

  ghost predicate NoOutgoing(ns: seq<Neuron>)
    reads Members(ns)`outgoing
  {
    forall j :: 0 <= j < |ns| ==> ns[j].outgoing == []
  }

  /**
   * Every neuron j of `src` has one outgoing synapse per neuron of `dst`, the
   * one at position k going to target k, and that same synapse object is
   * target k's incoming synapse at position j.
   */
  ghost predicate Connects(src: seq<Neuron>, dst: seq<Neuron>)
    reads Members(src)`outgoing, Members(dst)`incoming
  {
    && (forall j :: 0 <= j < |src| ==> |src[j].outgoing| == |dst|)
    && (forall k :: 0 <= k < |dst| ==> |dst[k].incoming| == |src|)
    && forall j, k :: 0 <= j < |src| && 0 <= k < |dst| ==>
         && src[j].outgoing[k] == dst[k].incoming[j]
         && src[j].outgoing[k].inputNeuron == src[j]
         && src[j].outgoing[k].outputNeuron == dst[k]
  }

  /**
   * The graph the constructor leaves: adjacent lists are fully connected,
   * the first list has no incoming and the last no outgoing synapses.
   */
  ghost predicate FullyConnected(lists: seq<seq<Neuron>>)
    reads NeuronsIn(lists)`outgoing, NeuronsIn(lists)`incoming
  {
    && (forall i :: 0 <= i < |lists| - 1 ==> Connects(lists[i], lists[i + 1]))
    && (|lists| > 0 ==> NoIncoming(lists[0]) && NoOutgoing(lists[|lists| - 1]))
  }

  /** The lists of `xss`, one after another. */
  function Flatten<T>(xss: seq<seq<T>>): seq<T> {
    if xss == [] then [] else Flatten(xss[..|xss| - 1]) + xss[|xss| - 1]
  }

  /** The lists of lists of `x`, each flattened, one after another. */
  function Flatten2<T>(x: seq<seq<seq<T>>>): seq<T> {
    if x == [] then [] else Flatten2(x[..|x| - 1]) + Flatten(x[|x| - 1])
  }

  /** The outgoing lists of `ns`, one after another. */
  ghost function OutgoingOf(ns: seq<Neuron>): seq<Synapse>
    reads Members(ns)`outgoing
  {
    if ns == [] then [] else OutgoingOf(ns[..|ns| - 1]) + ns[|ns| - 1].outgoing
  }

  /** The synapses in the outgoing lists of any neuron of `lists`. */
  ghost function SynapsesIn(lists: seq<seq<Neuron>>): set<Synapse>
    reads NeuronsIn(lists)`outgoing
  {
    set a, b, k | 0 <= a < |lists| && 0 <= b < |lists[a]| && 0 <= k < |lists[a][b].outgoing| :: lists[a][b].outgoing[k]
  }

  /** The outgoing lists of all neurons, list by list and neuron by neuron. */
  ghost function AllOutgoing(lists: seq<seq<Neuron>>): seq<Synapse>
    reads NeuronsIn(lists)`outgoing
  {
    if lists == [] then [] else AllOutgoing(lists[..|lists| - 1]) + OutgoingOf(lists[|lists| - 1])
  }

  /** Synapse k of neuron b of `ns` occurs in OutgoingOf(ns). */
  lemma {:induction false} OutgoingOfHas(ns: seq<Neuron>, b: int, k: int)
    requires 0 <= b < |ns| && 0 <= k < |ns[b].outgoing|
    ensures ns[b].outgoing[k] in OutgoingOf(ns)
  {
    var init := ns[..|ns| - 1];
    if b < |ns| - 1 {
      OutgoingOfHas(init, b, k);
    }
  }

  /** Synapse k of neuron b of list a occurs in AllOutgoing(lists). */
  lemma {:induction false} AllOutgoingHas(lists: seq<seq<Neuron>>, a: int, b: int, k: int)
    requires 0 <= a < |lists| && 0 <= b < |lists[a]| && 0 <= k < |lists[a][b].outgoing|
    ensures lists[a][b].outgoing[k] in AllOutgoing(lists)
  {
    var init := lists[..|lists| - 1];
    if a < |lists| - 1 {
      AllOutgoingHas(init, a, b, k);
    } else {
      OutgoingOfHas(lists[a], b, k);
    }
  }

  /** Every synapse reachable from the neurons of `lists` is in AllOutgoing(lists). */
  lemma SynapsesInAllOutgoing(lists: seq<seq<Neuron>>)
    ensures forall s | s in SynapsesIn(lists) :: s in AllOutgoing(lists)
  {
    forall a, b, k | 0 <= a < |lists| && 0 <= b < |lists[a]| && 0 <= k < |lists[a][b].outgoing|
      ensures lists[a][b].outgoing[k] in AllOutgoing(lists)
    {
      AllOutgoingHas(lists, a, b, k);
    }
  }

  /** A list of distinct lists has distinct members in each list. */
  lemma DistinctList(lists: seq<seq<Neuron>>, a: int)
    requires DistinctNeurons(lists) && 0 <= a < |lists|
    ensures DistinctSeq(lists[a])
  {
  }

  /** Two different lists of distinct lists share no neuron. */
  lemma DisjointLists(lists: seq<seq<Neuron>>, a: int, c: int)
    requires DistinctNeurons(lists) && 0 <= a < |lists| && 0 <= c < |lists| && a != c
    ensures Members(lists[a]) !! Members(lists[c])
  {
  }

  /** No neuron outside lists c and c + 1 belongs to either of them. */
  lemma OutsidePair(lists: seq<seq<Neuron>>, c: int)
    requires DistinctNeurons(lists) && 0 <= c < |lists| - 1
    ensures forall a, b | 0 <= a < |lists| && 0 <= b < |lists[a]| && a != c :: lists[a][b] !in Members(lists[c])
    ensures forall a, b | 0 <= a < |lists| && 0 <= b < |lists[a]| && a != c + 1 :: lists[a][b] !in Members(lists[c + 1])
  {
    forall a, b | 0 <= a < |lists| && 0 <= b < |lists[a]| && a != c
      ensures lists[a][b] !in Members(lists[c])
    {
      DisjointLists(lists, a, c);
    }
    forall a, b | 0 <= a < |lists| && 0 <= b < |lists[a]| && a != c + 1
      ensures lists[a][b] !in Members(lists[c + 1])
    {
      DisjointLists(lists, a, c + 1);
    }
  }

  /** OutgoingOf is the flattening of the neurons' outgoing lists, read off in one state. */
  lemma {:induction false} OutgoingOfIs(ns: seq<Neuron>, outs: seq<seq<Synapse>>)
    requires |outs| == |ns|
    requires forall j :: 0 <= j < |ns| ==> outs[j] == ns[j].outgoing
    ensures OutgoingOf(ns) == Flatten(outs)
  {
    if ns != [] {
      OutgoingOfIs(ns[..|ns| - 1], outs[..|outs| - 1]);
    }
  }

  /** AllOutgoing is the flattening of all neurons' outgoing lists, read off in one state. */
  lemma {:induction false} AllOutgoingIs(lists: seq<seq<Neuron>>, outs: seq<seq<seq<Synapse>>>)
    requires |outs| == |lists|
    requires forall a :: 0 <= a < |lists| ==> |outs[a]| == |lists[a]|
    requires forall a, b :: 0 <= a < |lists| && 0 <= b < |lists[a]| ==> outs[a][b] == lists[a][b].outgoing
    ensures AllOutgoing(lists) == Flatten2(outs)
  {
    if lists != [] {
      var n := |lists| - 1;
      AllOutgoingIs(lists[..n], outs[..n]);
      OutgoingOfIs(lists[n], outs[n]);
    }
  }

  /** The outgoing lists of all neurons, as values. */
  lemma OutgoingValues(lists: seq<seq<Neuron>>) returns (outs: seq<seq<seq<Synapse>>>)
    ensures |outs| == |lists|
    ensures forall a :: 0 <= a < |lists| ==> |outs[a]| == |lists[a]|
    ensures forall a, b :: 0 <= a < |lists| && 0 <= b < |lists[a]| ==> outs[a][b] == lists[a][b].outgoing
  {
    outs := seq(|lists|, a requires 0 <= a < |lists| reads NeuronsIn(lists) =>
      seq(|lists[a]|, b requires 0 <= b < |lists[a]| reads NeuronsIn(lists) => lists[a][b].outgoing));
  }

  /** Flattening lists that are all empty gives the empty list. */
  lemma {:induction false} FlattenNone<T>(xss: seq<seq<T>>)
    requires forall i :: 0 <= i < |xss| ==> xss[i] == []
    ensures Flatten(xss) == []
  {
    if xss != [] {
      FlattenNone(xss[..|xss| - 1]);
    }
  }

  /** Flattening lists of one length m gives |xss| * m entries. */
  lemma {:induction false} FlattenRowsLength<T>(xss: seq<seq<T>>, m: nat)
    requires forall j :: 0 <= j < |xss| ==> |xss[j]| == m
    ensures |Flatten(xss)| == |xss| * m
  {
    if xss != [] {
      var init := xss[..|xss| - 1];
      FlattenRowsLength(init, m);
      assert |Flatten(xss)| == |Flatten(init)| + m;
      assert |init| * m + m == |xss| * m;
    }
  }

  /** Flattening the first j + 1 lists adds list j after the first j, and those come first in the whole. */
  lemma {:induction false} FlattenPrefix<T>(xss: seq<seq<T>>, j: nat)
    requires j < |xss|
    ensures Flatten(xss[..j + 1]) == Flatten(xss[..j]) + xss[j]
    ensures |Flatten(xss[..j + 1])| <= |Flatten(xss)|
    ensures Flatten(xss)[..|Flatten(xss[..j + 1])|] == Flatten(xss[..j + 1])
  {
    assert xss[..j + 1][..j] == xss[..j];
    var n := |xss| - 1;
    if j < n {
      FlattenPrefix(xss[..n], j);
      assert xss[..n][..j + 1] == xss[..j + 1];
      assert xss[..n][..j] == xss[..j];
      assert xss[..n][j] == xss[j];
    } else {
      assert xss[..j + 1] == xss;
    }
  }

  /** In the flattening of lists, entry k of list j sits k after the entries of the lists before j. */
  lemma FlattenAt<T>(xss: seq<seq<T>>, j: int, k: int)
    requires 0 <= j < |xss| && 0 <= k < |xss[j]|
    ensures |Flatten(xss[..j])| + k < |Flatten(xss)|
    ensures Flatten(xss)[|Flatten(xss[..j])| + k] == xss[j][k]
  {
    FlattenPrefix(xss, j);
    var front := Flatten(xss[..j]);
    assert Flatten(xss)[..|front| + |xss[j]|] == front + xss[j];
  }

  /** Flattening the first a + 1 blocks adds block a after the first a, and those come first in the whole. */
  lemma {:induction false} Flatten2Prefix<T>(x: seq<seq<seq<T>>>, a: nat)
    requires a < |x|
    ensures Flatten2(x[..a + 1]) == Flatten2(x[..a]) + Flatten(x[a])
    ensures |Flatten2(x[..a + 1])| <= |Flatten2(x)|
    ensures Flatten2(x)[..|Flatten2(x[..a + 1])|] == Flatten2(x[..a + 1])
  {
    assert x[..a + 1][..a] == x[..a];
    var n := |x| - 1;
    if a < n {
      Flatten2Prefix(x[..n], a);
      assert x[..n][..a + 1] == x[..a + 1];
      assert x[..n][..a] == x[..a];
      assert x[..n][a] == x[a];
    } else {
      assert x[..a + 1] == x;
    }
  }

  /** In the flattening of blocks, entry p of block a sits p after the entries of the blocks before a. */
  lemma Flatten2At<T>(x: seq<seq<seq<T>>>, a: int, p: int)
    requires 0 <= a < |x| && 0 <= p < |Flatten(x[a])|
    ensures |Flatten2(x[..a])| + p < |Flatten2(x)|
    ensures Flatten2(x)[|Flatten2(x[..a])| + p] == Flatten(x[a])[p]
  {
    Flatten2Prefix(x, a);
    var front, block := Flatten2(x[..a]), Flatten(x[a]);
    assert Flatten2(x)[..|front| + |block|] == front + block;
  }

  /**
   * The values of a partial wiring between `src` and `dst`: `outs` holds the
   * outgoing lists of the first j sources, each with one synapse per target,
   * and `ins` holds the targets' incoming lists, each of length j, such that
   * source j' reaches target k through the synapse at position j' of target
   * k's list.
   */
  ghost predicate LinkedUpTo(src: seq<Neuron>, dst: seq<Neuron>, outs: seq<seq<Synapse>>, ins: seq<seq<Synapse>>, j: int) {
    && 0 <= j <= |src|
    && |outs| == j && |ins| == |dst|
    && (forall j' :: 0 <= j' < j ==> |outs[j']| == |dst|)
    && (forall k :: 0 <= k < |dst| ==> |ins[k]| == j)
    && forall j', k :: 0 <= j' < j && 0 <= k < |dst| ==>
         && outs[j'][k] == ins[k][j']
         && outs[j'][k].inputNeuron == src[j']
         && outs[j'][k].outputNeuron == dst[k]
  }

  /** The values of a complete wiring between `src` and `dst`. */
  ghost predicate Linked(src: seq<Neuron>, dst: seq<Neuron>, outs: seq<seq<Synapse>>, ins: seq<seq<Synapse>>) {
    LinkedUpTo(src, dst, outs, ins, |src|)
  }

  /** Each list of `ins` with the matching synapse of `o` appended. */
  function AppendEach(ins: seq<seq<Synapse>>, o: seq<Synapse>): (r: seq<seq<Synapse>>)
    requires |ins| <= |o|
    ensures |r| == |ins| && forall k :: 0 <= k < |ins| ==> r[k] == ins[k] + [o[k]]
  {
    seq(|ins|, k requires 0 <= k < |ins| => ins[k] + [o[k]])
  }

  /** Wiring the next source to every target, in order, extends a partial wiring by one source. */
  lemma LinkedStep(src: seq<Neuron>, dst: seq<Neuron>, outs: seq<seq<Synapse>>, ins: seq<seq<Synapse>>, o: seq<Synapse>)
    requires LinkedUpTo(src, dst, outs, ins, |outs|) && |outs| < |src|
    requires |o| == |dst|
    requires forall k :: 0 <= k < |dst| ==> o[k].inputNeuron == src[|outs|] && o[k].outputNeuron == dst[k]
    ensures LinkedUpTo(src, dst, outs + [o], AppendEach(ins, o), |outs| + 1)
  {
  }

  /**
   * The heap agrees with the recorded values: neuron b of list a has outgoing
   * list outs[a][b] and incoming list ins[a][b].
   */
  ghost predicate Recorded(lists: seq<seq<Neuron>>, outs: seq<seq<seq<Synapse>>>, ins: seq<seq<seq<Synapse>>>)
    reads NeuronsIn(lists)`outgoing, NeuronsIn(lists)`incoming
  {
    && |outs| == |lists| && |ins| == |lists|
    && (forall a :: 0 <= a < |lists| ==> |outs[a]| == |lists[a]| && |ins[a]| == |lists[a]|)
    && forall a, b :: 0 <= a < |lists| && 0 <= b < |lists[a]| ==>
         lists[a][b].outgoing == outs[a][b] && lists[a][b].incoming == ins[a][b]
  }

  /** No neuron of any list has a synapse yet. */
  ghost predicate Unwired(lists: seq<seq<Neuron>>)
    reads NeuronsIn(lists)`incoming, NeuronsIn(lists)`outgoing
  {
    forall i :: 0 <= i < |lists| ==> NoIncoming(lists[i]) && NoOutgoing(lists[i])
  }

  /**
   * The values of the wiring after the first i lists are connected to their
   * successors: those pairs are Linked, lists i and later have no outgoing
   * and lists after i (and the first) no incoming synapses.
   */
  ghost predicate WiredUpTo(lists: seq<seq<Neuron>>, i: int, outs: seq<seq<seq<Synapse>>>, ins: seq<seq<seq<Synapse>>>) {
    && 0 <= i <= |lists|
    && |outs| == |lists| && |ins| == |lists|
    && (forall a :: 0 <= a < |lists| ==> |outs[a]| == |lists[a]| && |ins[a]| == |lists[a]|)
    && (forall a :: 0 <= a < i && a + 1 < |lists| ==> Linked(lists[a], lists[a + 1], outs[a], ins[a + 1]))
    && (forall a, b :: i <= a < |lists| && 0 <= b < |lists[a]| ==> outs[a][b] == [])
    && (forall a, b :: i < a < |lists| && 0 <= b < |lists[a]| ==> ins[a][b] == [])
    && (forall b :: |lists| > 0 && 0 <= b < |lists[0]| ==> ins[0][b] == [])
  }

  /** Unwired lists are recorded by one empty list per neuron, and no list is wired yet. */
  lemma UnwiredRecorded(lists: seq<seq<Neuron>>) returns (empties: seq<seq<seq<Synapse>>>)
    requires Unwired(lists)
    ensures Recorded(lists, empties, empties) && WiredUpTo(lists, 0, empties, empties)
  {
    empties := seq(|lists|, a requires 0 <= a < |lists| => seq(|lists[a]|, b => []));
  }

  /** Linking list i to list i + 1 extends the wiring by one list. */
  lemma WiredStep(lists: seq<seq<Neuron>>, i: int, outs: seq<seq<seq<Synapse>>>, ins: seq<seq<seq<Synapse>>>,
                  lo: seq<seq<Synapse>>, li: seq<seq<Synapse>>)
    requires WiredUpTo(lists, i, outs, ins) && i + 1 < |lists|
    requires Linked(lists[i], lists[i + 1], lo, li)
    ensures WiredUpTo(lists, i + 1, outs[i := lo], ins[i + 1 := li])
  {
  }

  /** Values that agree with the heap and link two lists show the lists connected. */
  lemma ConnectsOf(src: seq<Neuron>, dst: seq<Neuron>, outs: seq<seq<Synapse>>, ins: seq<seq<Synapse>>)
    requires Linked(src, dst, outs, ins)
    requires forall j :: 0 <= j < |src| ==> src[j].outgoing == outs[j]
    requires forall k :: 0 <= k < |dst| ==> dst[k].incoming == ins[k]
    ensures Connects(src, dst)
  {
  }

  /**
   * Values that agree with the heap and wire every list to its successor
   * show the lists fully connected, with AllOutgoing the flattening of the
   * recorded outgoing lists of all lists but the last.
   */
  lemma {:induction false} FullyConnectedOf(lists: seq<seq<Neuron>>, outs: seq<seq<seq<Synapse>>>, ins: seq<seq<seq<Synapse>>>, n: int)
    requires n == if |lists| == 0 then 0 else |lists| - 1
    requires Recorded(lists, outs, ins) && WiredUpTo(lists, n, outs, ins)
    ensures FullyConnected(lists)
    ensures AllOutgoing(lists) == Flatten2(outs[..n])
  {
    forall a | 0 <= a < |lists| - 1
      ensures Connects(lists[a], lists[a + 1])
    {
      ConnectsOf(lists[a], lists[a + 1], outs[a], ins[a + 1]);
    }
    AllOutgoingIs(lists, outs);
    if |lists| > 0 {
      FlattenNone(outs[n]);
      assert outs[..n] == outs[..|outs| - 1];
    }
  }
}
