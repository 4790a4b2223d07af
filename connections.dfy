/** Which pairs of particles a frame connects with a line: for each particle `i`, the
    particles `j > i` closer than the connection distance, scanned in index order and
    cut off once `i`'s connection budget is spent. */
module Connections {
  import opened Particles
  import opened Density

  function ConnectionDistance(q: Quality): real
  {
    if q == High then 120.0 else 80.0
  }

  function MaxConnections(q: Quality): nat
  {
    if q == High then 12 else 8
  }

  function SquaredDistance(a: ParticleState, b: ParticleState): real
  {
    var dx := a.x - b.x;
    var dy := a.y - b.y;
    dx * dx + dy * dy
  }

  /** Particles `i` and `j` are close enough to be connected at quality `q`. */
  predicate Near(ps: seq<ParticleState>, i: nat, j: nat, q: Quality)
    requires i < |ps| && j < |ps|
  {
    SquaredDistance(ps[i], ps[j]) < ConnectionDistance(q) * ConnectionDistance(q)
  }

  /** The pairs `(i, k)` the inner scan draws, starting at `j` with `budget` connections
      left for `i`. */
  function Row(ps: seq<ParticleState>, i: nat, j: nat, budget: nat, q: Quality): seq<(nat, nat)>
    requires i < |ps|
    decreases |ps| - j
  {
    if j >= |ps| || budget == 0 then []
    else if Near(ps, i, j, q) then [(i, j)] + Row(ps, i, j + 1, budget - 1, q)
    else Row(ps, i, j + 1, budget, q)
  }

  /** The pairs drawn by the outer scan from particle `i` on. */
  function PairsFrom(ps: seq<ParticleState>, i: nat, q: Quality): seq<(nat, nat)>
    decreases |ps| - i
  {
    if i >= |ps| then []
    else Row(ps, i, i + 1, MaxConnections(q), q) + PairsFrom(ps, i + 1, q)
  }

  /** The inner scan spends at most its budget and draws only lines from `i` to particles
      at or after `j`. `RowSound` below says strictly more; this distance-free version
      keeps `Near` out of the proof of `SourceOfPairsFrom`, which is several times cheaper
      without it. */
  lemma {:induction false} RowShape(ps: seq<ParticleState>, i: nat, j: nat, budget: nat, q: Quality)
    requires i < |ps|
    ensures |Row(ps, i, j, budget, q)| <= budget
    ensures forall p :: p in Row(ps, i, j, budget, q) ==> p.0 == i && j <= p.1 < |ps|
    decreases |ps| - j
  {
    if j < |ps| && budget > 0 {
      if Near(ps, i, j, q) {
        RowShape(ps, i, j + 1, budget - 1, q);
      } else {
        RowShape(ps, i, j + 1, budget, q);
      }
    }
  }

  /** The outer scan from `s` on draws only lines from some `i >= s` to some `j > i`
      (the distance-free part of `PairsFromSound`, for the same reason as `RowShape`). */
  lemma {:induction false} PairsFromShape(ps: seq<ParticleState>, s: nat, q: Quality)
    ensures forall p :: p in PairsFrom(ps, s, q) ==> s <= p.0 < p.1 < |ps|
    decreases |ps| - s
  {
    if s < |ps| {
      RowShape(ps, s, s + 1, MaxConnections(q), q);
      PairsFromShape(ps, s + 1, q);
    }
  }

  /** The inner scan spends at most its budget, and draws only lines from `i` to near
      particles at or after `j`. */
  lemma {:induction false} RowSound(ps: seq<ParticleState>, i: nat, j: nat, budget: nat, q: Quality)
    requires i < |ps|
    ensures |Row(ps, i, j, budget, q)| <= budget
    ensures forall p :: p in Row(ps, i, j, budget, q) ==> p.0 == i && j <= p.1 < |ps| && Near(ps, i, p.1, q)
    decreases |ps| - j
  {
    if j < |ps| && budget > 0 {
      if Near(ps, i, j, q) {
        RowSound(ps, i, j + 1, budget - 1, q);
      } else {
        RowSound(ps, i, j + 1, budget, q);
      }
    }
  }

  /** The outer scan from `s` on draws only lines from some `i >= s` to a near `j > i`. */
  lemma {:induction false} PairsFromSound(ps: seq<ParticleState>, s: nat, q: Quality)
    ensures forall p :: p in PairsFrom(ps, s, q) ==> s <= p.0 < p.1 < |ps| && Near(ps, p.0, p.1, q)
    decreases |ps| - s
  {
    if s < |ps| {
      RowSound(ps, s, s + 1, MaxConnections(q), q);
      PairsFromSound(ps, s + 1, q);
    }
  }

  /** Every line one connection pass draws, in drawing order. */
  function ConnectionPairs(ps: seq<ParticleState>, q: Quality): seq<(nat, nat)>
  {
    PairsFrom(ps, 0, q)
  }

  /** Reference definition: every `k >= j` near particle `i`, in increasing order. */
  function NearFrom(ps: seq<ParticleState>, i: nat, j: nat, q: Quality): (ks: seq<nat>)
    requires i < |ps|
    ensures forall k :: k in ks <==> j <= k < |ps| && Near(ps, i, k, q)
    ensures forall a, b :: 0 <= a < b < |ks| ==> ks[a] < ks[b]
    decreases |ps| - j
  {
    if j >= |ps| then []
    else
      var rest := NearFrom(ps, i, j + 1, q);
      if Near(ps, i, j, q) then
        assert forall a :: 0 <= a < |rest| ==> rest[a] in rest;
        [j] + rest
      else rest
  }

  /** The first `n` elements of `s`, or all of them when there are fewer. */
  function Take<T>(s: seq<T>, n: nat): seq<T>
  {
    if n < |s| then s[..n] else s
  }

  /** Pairs each `k` of `ks` with `i`. */
  function Tag(i: nat, ks: seq<nat>): (r: seq<(nat, nat)>)
    ensures |r| == |ks|
    ensures forall a :: 0 <= a < |ks| ==> r[a] == (i, ks[a])
  {
    seq(|ks|, a requires 0 <= a < |ks| => (i, ks[a]))
  }

  /** The pairs with first component `i`, in order. */
  function Source(pairs: seq<(nat, nat)>, i: nat): seq<(nat, nat)>
  {
    if pairs == [] then []
    else (if pairs[0].0 == i then [pairs[0]] else []) + Source(pairs[1..], i)
  }

  lemma {:induction false} SourceAppend(a: seq<(nat, nat)>, b: seq<(nat, nat)>, i: nat)
    ensures Source(a + b, i) == Source(a, i) + Source(b, i)
  {
    if a == [] {
      assert a + b == b;
    } else {
      var head := if a[0].0 == i then [a[0]] else [];
      assert (a + b)[0] == a[0];
      assert (a + b)[1..] == a[1..] + b;
      assert Source(a + b, i) == head + Source(a[1..] + b, i);
      SourceAppend(a[1..], b, i);
      assert Source(a, i) == head + Source(a[1..], i);
    }
  }

  lemma {:induction false} SourceOfOwn(r: seq<(nat, nat)>, i: nat)
    requires forall p :: p in r ==> p.0 == i
    ensures Source(r, i) == r
  {
    if r != [] {
      SourceOfOwn(r[1..], i);
    }
  }

  lemma {:induction false} SourceOfOther(r: seq<(nat, nat)>, i: nat)
    requires forall p :: p in r ==> p.0 != i
    ensures Source(r, i) == []
  {
    if r != [] {
      SourceOfOther(r[1..], i);
    }
  }

  lemma TakeCons(k: nat, s: seq<nat>, n: nat)
    requires n > 0
    ensures Take([k] + s, n) == [k] + Take(s, n - 1)
  {
  }

  lemma TagCons(i: nat, k: nat, ks: seq<nat>)
    ensures Tag(i, [k] + ks) == [(i, k)] + Tag(i, ks)
  {
  }

  /** The inner scan draws exactly the first `budget` near particles from `j` on. */
  lemma {:induction false} RowIsCappedScan(ps: seq<ParticleState>, i: nat, j: nat, budget: nat, q: Quality)
    requires i < |ps|
    ensures Row(ps, i, j, budget, q) == Tag(i, Take(NearFrom(ps, i, j, q), budget))
    decreases |ps| - j
  {
    if j >= |ps| || budget == 0 {
    } else if Near(ps, i, j, q) {
      RowIsCappedScan(ps, i, j + 1, budget - 1, q);
      var rest := NearFrom(ps, i, j + 1, q);
      assert NearFrom(ps, i, j, q) == [j] + rest;
      TakeCons(j, rest, budget);
      TagCons(i, j, Take(rest, budget - 1));
    } else {
      RowIsCappedScan(ps, i, j + 1, budget, q);
    }
  }

  lemma {:induction false} SourceOfPairsFrom(ps: seq<ParticleState>, s: nat, i: nat, q: Quality)
    requires i < |ps|
    ensures Source(PairsFrom(ps, s, q), i) ==
            if s <= i then Row(ps, i, i + 1, MaxConnections(q), q) else []
    decreases |ps| - s
  {
    if s >= |ps| {
    } else if s > i {
      PairsFromShape(ps, s, q);
      SourceOfOther(PairsFrom(ps, s, q), i);
    } else {
      var row := Row(ps, s, s + 1, MaxConnections(q), q);
      RowShape(ps, s, s + 1, MaxConnections(q), q);
      SourceAppend(row, PairsFrom(ps, s + 1, q), i);
      SourceOfPairsFrom(ps, s + 1, i, q);
      if s == i {
        SourceOfOwn(row, i);
      } else {
        SourceOfOther(row, i);
      }
    }
  }

  /** For each particle `i`, the lines counted against `i` are exactly `(i, j)` for the
      first min(k, MaxConnections) near particles `j > i`, in increasing order of `j`,
      where k is how many near particles follow `i`. */
  lemma PerParticleSelection(ps: seq<ParticleState>, q: Quality, i: nat)
    requires i < |ps|
    ensures Source(ConnectionPairs(ps, q), i) ==
            Tag(i, Take(NearFrom(ps, i, i + 1, q), MaxConnections(q)))
  {
    SourceOfPairsFrom(ps, 0, i, q);
    RowIsCappedScan(ps, i, i + 1, MaxConnections(q), q);
  }

  /** Every drawn line joins a lower-indexed particle to a higher-indexed one that lies
      strictly closer than the connection distance. */
  lemma ConnectionPairsSound(ps: seq<ParticleState>, q: Quality, p: (nat, nat))
    requires p in ConnectionPairs(ps, q)
    ensures p.0 < p.1 < |ps|
    ensures SquaredDistance(ps[p.0], ps[p.1]) < ConnectionDistance(q) * ConnectionDistance(q)
  {
    PairsFromSound(ps, 0, q);
  }

  /** Nothing is drawn for a pool of fewer than two particles. */
  lemma {:induction false} NoPairsBelowTwo(ps: seq<ParticleState>, q: Quality)
    requires |ps| < 2
    ensures ConnectionPairs(ps, q) == []
  {
    if |ps| == 1 {
      assert Row(ps, 0, 1, MaxConnections(q), q) == [];
      assert PairsFrom(ps, 1, q) == [];
    }
  }
}
