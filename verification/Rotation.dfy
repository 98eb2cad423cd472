/**
 Artemis leader rotation.  The next round leader is picked by a hash of the
 round number from the replicas that did not lead one of the last `f` rounds.
 */
module LeaderRotation {
  import opened Transactions

  datatype Rotation = Rotation(leader: Replica, recent: seq<Replica>, eligible: seq<Replica>)

  function Initial(n: nat, f: nat): Rotation
    requires 1 <= f < n
  {
    Rotation(f - 1, seq(f, i => i), seq(n - f, i requires 0 <= i => f + i))
  }

  /** Insertion into an insertion-ordered map: a key that is already there moves to the back. */
  function PushBack(q: seq<Replica>, x: Replica): seq<Replica> {
    Without(q, x) + [x]
  }

  function Without(q: seq<Replica>, x: Replica): seq<Replica> {
    if q == [] then [] else (if q[0] == x then [] else [q[0]]) + Without(q[1..], x)
  }

  function Pick(rot: Rotation, digest: nat): nat
    requires rot.eligible != []
  {
    digest % |rot.eligible|
  }

  function Rotate(rot: Rotation, digest: nat): Rotation
    requires rot.recent != [] && rot.eligible != []
  {
    var i := Pick(rot, digest);
    Rotation(rot.eligible[i], PushBack(rot.recent[1..], rot.eligible[i]), rot.eligible[i := rot.recent[0]])
  }

  ghost predicate Distinct(q: seq<Replica>) {
    forall i, j :: 0 <= i < j < |q| ==> q[i] != q[j]
  }

  /** The recent leaders and the eligible replicas partition the `n` replicas. */
  ghost predicate Partition(rot: Rotation, n: nat, f: nat) {
    && |rot.recent| == f && |rot.eligible| == n - f && 1 <= f < n
    && Distinct(rot.recent) && Distinct(rot.eligible)
    && (forall x :: x in rot.recent ==> x !in rot.eligible)
    && (forall x: Replica :: x in rot.recent || x in rot.eligible <==> x < n)
    && rot.leader == rot.recent[f - 1]
  }

  lemma InitialPartition(n: nat, f: nat)
    requires 1 <= f < n
    ensures Partition(Initial(n, f), n, f)
  {
    var rot := Initial(n, f);
    forall x: Replica | x < n ensures x in rot.recent || x in rot.eligible {
      if x < f {
        assert rot.recent[x] == x;
      } else {
        assert rot.eligible[x - f] == x;
      }
    }
  }

  lemma {:induction false} WithoutAbsent(q: seq<Replica>, x: Replica)
    requires x !in q
    ensures Without(q, x) == q
  {
    if q != [] {
      assert q[0] in q;
      assert forall y :: y in q[1..] ==> y in q;
      WithoutAbsent(q[1..], x);
    }
  }

  /** The new leader was not among the recent ones, so it is appended. */
  lemma RotateAppends(rot: Rotation, n: nat, f: nat, digest: nat)
    requires Partition(rot, n, f)
    ensures var i := Pick(rot, digest);
            Rotate(rot, digest) == Rotation(rot.eligible[i], rot.recent[1..] + [rot.eligible[i]],
                rot.eligible[i := rot.recent[0]])
  {
    var x := rot.eligible[Pick(rot, digest)];
    assert x in rot.eligible;
    assert forall y :: y in rot.recent[1..] ==> y in rot.recent;
    WithoutAbsent(rot.recent[1..], x);
  }

  lemma SwapMembers(recent: seq<Replica>, eligible: seq<Replica>, i: nat)
    requires recent != [] && i < |eligible|
    ensures forall y :: (y in recent[1..] + [eligible[i]] || y in eligible[i := recent[0]]) <==>
            (y in recent || y in eligible)
  {
    var recent', eligible' := recent[1..] + [eligible[i]], eligible[i := recent[0]];
    forall y | y in recent || y in eligible ensures y in recent' || y in eligible' {
      if y in recent {
        var j :| 0 <= j < |recent| && recent[j] == y;
        if j == 0 { assert eligible'[i] == y; } else { assert recent'[j - 1] == y; }
      } else {
        var j :| 0 <= j < |eligible| && eligible[j] == y;
        if j == i { assert recent'[|recent| - 1] == y; } else { assert eligible'[j] == y; }
      }
    }
  }

  lemma SwapDisjoint(recent: seq<Replica>, eligible: seq<Replica>, i: nat)
    requires recent != [] && i < |eligible| && Distinct(recent) && Distinct(eligible)
    requires forall x :: x in recent ==> x !in eligible
    ensures forall y :: y in recent[1..] + [eligible[i]] ==> y !in eligible[i := recent[0]]
  {
    var recent', eligible' := recent[1..] + [eligible[i]], eligible[i := recent[0]];
    assert recent[0] in recent && eligible[i] in eligible;
    forall a, b | 0 <= a < |recent'| && 0 <= b < |eligible'| ensures recent'[a] != eligible'[b] {
      if a + 1 < |recent| {
        assert recent'[a] == recent[a + 1];
        assert recent[a + 1] in recent;
        assert recent[0] != recent[a + 1];
      }
      if b != i {
        assert eligible'[b] == eligible[b];
      }
    }
  }

  lemma RotateKeepsPartition(rot: Rotation, n: nat, f: nat, digest: nat)
    requires Partition(rot, n, f)
    ensures Partition(Rotate(rot, digest), n, f)
    ensures Rotate(rot, digest).leader !in rot.recent
  {
    var i := Pick(rot, digest);
    var x := rot.eligible[i];
    RotateAppends(rot, n, f, digest);
    SwapMembers(rot.recent, rot.eligible, i);
    SwapDisjoint(rot.recent, rot.eligible, i);
    assert x in rot.eligible && rot.recent[0] in rot.recent;
    assert forall j :: 0 <= j < f ==> rot.recent[j] in rot.recent;
    assert forall j :: 0 <= j < |rot.eligible| ==> rot.eligible[j] in rot.eligible;
  }

  // ---------------------------------------------------------------- whole runs

  /** The rotation in round `r`, a function of the configuration and the round alone. */
  function RotationAt(n: nat, f: nat, digest: nat -> nat, r: nat): (rot: Rotation)
    requires 1 <= f < n && r >= 1
    ensures rot.recent != [] && |rot.eligible| == n - f
  {
    if r == 1 then Initial(n, f) else Rotate(RotationAt(n, f, digest, r - 1), digest(r))
  }

  lemma {:induction false} RotationPartition(n: nat, f: nat, digest: nat -> nat, r: nat)
    requires 1 <= f < n && r >= 1
    ensures Partition(RotationAt(n, f, digest, r), n, f)
  {
    if r == 1 {
      InitialPartition(n, f);
    } else {
      RotationPartition(n, f, digest, r - 1);
      RotateKeepsPartition(RotationAt(n, f, digest, r - 1), n, f, digest(r));
    }
  }

  function LeaderAt(n: nat, f: nat, digest: nat -> nat, r: nat): Replica
    requires 1 <= f < n && r >= 1
  {
    RotationAt(n, f, digest, r).leader
  }

  /** A leader stays in the recent queue for `f` rounds, moving to the front one place per round. */
  lemma RotationStep(n: nat, f: nat, digest: nat -> nat, r: nat)
    requires 1 <= f < n && r > 1
    ensures var before := RotationAt(n, f, digest, r - 1);
            RotationAt(n, f, digest, r) == Rotate(before, digest(r))
            && RotationAt(n, f, digest, r).recent == before.recent[1..] + [LeaderAt(n, f, digest, r)]
  {
    RotationPartition(n, f, digest, r - 1);
    RotateAppends(RotationAt(n, f, digest, r - 1), n, f, digest(r));
  }

  /** The next leader stands in the list of eligible replicas where the digest of its round points, and the replica
      that led longest ago takes that place. */
  lemma ChosenByDigest(n: nat, f: nat, digest: nat -> nat, r: nat)
    requires 1 <= f < n && r >= 1
    ensures var rot, next := RotationAt(n, f, digest, r), RotationAt(n, f, digest, r + 1);
            var i := digest(r + 1) % (n - f);
            next.leader == rot.eligible[i] && next.eligible == rot.eligible[i := rot.recent[0]] &&
            next.recent == rot.recent[1..] + [rot.eligible[i]]
  {
    hide PushBack, RotationAt;
    RotationStep(n, f, digest, r + 1);
  }

  lemma {:induction false} LeaderIsRemembered(n: nat, f: nat, digest: nat -> nat, r: nat, c: nat)
    requires 1 <= f < n && 1 <= r <= c < r + f
    ensures |RotationAt(n, f, digest, c).recent| == f
    ensures LeaderAt(n, f, digest, r) == RotationAt(n, f, digest, c).recent[f - 1 - (c - r)]
    decreases c
  {
    RotationPartition(n, f, digest, c);
    if r < c {
      LeaderIsRemembered(n, f, digest, r, c - 1);
      RotationStep(n, f, digest, c);
    }
  }

  /** Any `f + 1` consecutive round leaders are pairwise distinct. */
  lemma LeadersDiffer(n: nat, f: nat, digest: nat -> nat, a: nat, b: nat)
    requires 1 <= f < n && 1 <= a < b <= a + f
    ensures LeaderAt(n, f, digest, a) != LeaderAt(n, f, digest, b)
  {
    hide Partition, RotationAt, Rotate;
    var before := RotationAt(n, f, digest, b - 1);
    RotationPartition(n, f, digest, b - 1);
    LeaderIsRemembered(n, f, digest, a, b - 1);
    RotateKeepsPartition(before, n, f, digest(b));
    RotationStep(n, f, digest, b);
    assert LeaderAt(n, f, digest, a) in before.recent;
  }

  /** `f + 1` distinct replicas cannot all lie in a set of `f`. */
  lemma {:induction false} Pigeonhole(q: seq<Replica>, s: set<Replica>)
    requires Distinct(q) && |s| < |q|
    ensures exists i :: 0 <= i < |q| && q[i] !in s
  {
    var last := q[|q| - 1];
    if last in s {
      Pigeonhole(q[..|q| - 1], s - {last});
      var i :| 0 <= i < |q| - 1 && q[..|q| - 1][i] !in s - {last};
      assert q[i] !in s;
    }
  }

  function Window(n: nat, f: nat, digest: nat -> nat, r: nat, len: nat): (q: seq<Replica>)
    requires 1 <= f < n && r >= 1
    ensures |q| == len && forall i :: 0 <= i < len ==> q[i] == LeaderAt(n, f, digest, r + i)
  {
    if len == 0 then [] else Window(n, f, digest, r, len - 1) + [LeaderAt(n, f, digest, r + len - 1)]
  }

  lemma WindowDistinct(n: nat, f: nat, digest: nat -> nat, r: nat)
    requires 1 <= f < n && r >= 1
    ensures Distinct(Window(n, f, digest, r, f + 1))
  {
    var q := Window(n, f, digest, r, f + 1);
    forall i, j | 0 <= i < j < |q| ensures q[i] != q[j] {
      LeadersDiffer(n, f, digest, r + i, r + j);
    }
  }

  /** Among any `f + 1` consecutive leaders at least one is outside any set of `f` faulty replicas. */
  lemma SomeLeaderIsCorrect(n: nat, f: nat, digest: nat -> nat, r: nat, faulty: set<Replica>)
    requires 1 <= f < n && r >= 1 && |faulty| <= f
    ensures exists c :: r <= c <= r + f && LeaderAt(n, f, digest, c) !in faulty
  {
    var q := Window(n, f, digest, r, f + 1);
    WindowDistinct(n, f, digest, r);
    Pigeonhole(q, faulty);
    var i :| 0 <= i < |q| && q[i] !in faulty;
    assert LeaderAt(n, f, digest, r + i) !in faulty;
  }
}
