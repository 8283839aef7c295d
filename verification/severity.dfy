/** The alert banner of the dashboard: the rounded AQI prediction is mapped
    to one of five ordered bands by a chain of `<=` tests, evaluated from the
    top down, first match wins. */
module Severity {

  /** The five bands, from best to worst air quality. */
  datatype Band = Good | Fair | Moderate | Poor | VeryPoor

  /** Position of a band in the order Good < Fair < Moderate < Poor < VeryPoor. */
  function Rank(b: Band): nat
  {
    match b
    case Good => 0
    case Fair => 1
    case Moderate => 2
    case Poor => 3
    case VeryPoor => 4
  }

  /** The upper edges, in the order the alert chain compares against them. */
  const Edges: seq<real> := [1.5, 2.5, 3.5, 4.5]

  /** The band each branch of the chain selects; the last one is the `else`. */
  const Bands: seq<Band> := [Good, Fair, Moderate, Poor, VeryPoor]

  /** The range table of the alert chain, one closed upper edge per band. */
  predicate InBand(p: real, b: Band)
  {
    match b
    case Good => p <= 1.5
    case Fair => 1.5 < p <= 2.5
    case Moderate => 2.5 < p <= 3.5
    case Poor => 3.5 < p <= 4.5
    case VeryPoor => 4.5 < p
  }

  predicate Ascending(edges: seq<real>)
  {
    forall i, j :: 0 <= i < j < |edges| ==> edges[i] < edges[j]
  }

  /** Index of the first edge that `p` does not exceed, or `|edges|` when
      `p` lies above all of them: the branch a top-down chain of `<=` tests
      takes. */
  function FirstAtLeast(edges: seq<real>, p: real): (k: nat)
    ensures k <= |edges|
    ensures forall j :: 0 <= j < k ==> edges[j] < p
    ensures k < |edges| ==> p <= edges[k]
  {
    if |edges| == 0 then 0
    else if p <= edges[0] then 0
    else 1 + FirstAtLeast(edges[1..], p)
  }

  /** Number of edges strictly below `p`: an order-free description of the band. */
  function CountBelow(edges: seq<real>, p: real): nat
  {
    if |edges| == 0 then 0
    else (if edges[0] < p then 1 else 0) + CountBelow(edges[1..], p)
  }

  /** The alert chain. Every real prediction falls in exactly one band. */
  function Classify(p: real): (b: Band)
    ensures InBand(p, b)
    ensures forall c: Band :: InBand(p, c) ==> c == b
  {
    var k := FirstAtLeast(Edges, p);
    assert k > 0 ==> Edges[0] < p;
    assert k > 1 ==> Edges[1] < p;
    assert k > 2 ==> Edges[2] < p;
    assert k > 3 ==> Edges[3] < p;
    Bands[k]
  }

  /** The upper edge of every band is inclusive, anything above the last
      edge is VeryPoor. */
  lemma EdgesInclusive()
    ensures Classify(1.5) == Good && Classify(2.5) == Fair
    ensures Classify(3.5) == Moderate && Classify(4.5) == Poor
    ensures forall p: real :: p > 4.5 ==> Classify(p) == VeryPoor
  {
  }

  /** A higher prediction never yields a better band. */
  lemma Monotone(x: real, y: real)
    requires x <= y
    ensures Rank(Classify(x)) <= Rank(Classify(y))
  {
  }

  /** On ascending edges, the first-match branch index is the number of
      edges below the value. */
  lemma {:induction false} FirstAtLeastIsCountBelow(edges: seq<real>, p: real)
    requires Ascending(edges)
    ensures FirstAtLeast(edges, p) == CountBelow(edges, p)
    decreases |edges|
  {
    if |edges| == 0 {
    } else if p <= edges[0] {
      CountBelowZero(edges[1..], p);
    } else {
      FirstAtLeastIsCountBelow(edges[1..], p);
    }
  }

  /** Nothing in `edges` lies below `p` when `p` is at most every edge. */
  lemma {:induction false} CountBelowZero(edges: seq<real>, p: real)
    requires forall j :: 0 <= j < |edges| ==> p <= edges[j]
    ensures CountBelow(edges, p) == 0
    decreases |edges|
  {
    if |edges| != 0 {
      CountBelowZero(edges[1..], p);
    }
  }

  /** The band's rank counts how many of the thresholds the prediction exceeds. */
  lemma RankCountsEdgesBelow(p: real)
    ensures Rank(Classify(p)) == CountBelow(Edges, p)
  {
    FirstAtLeastIsCountBelow(Edges, p);
  }
}
