/** `ScheduleTask`: one round-robin counter chooses the worker group, another the worker in it. */
module RoundRobin {
  import opened Arithmetic
  import opened Congruence
  import opened Masks

  /** Both counters are 16 bits wide. */
  const COUNTER := 0x1_0000

  type u16 = x: int | 0 <= x < COUNTER

  /** A counter after `n` increments. */
  function Counter(a: nat, n: nat): u16 {
    (a + n) % COUNTER
  }

  /** The group and the slot that the counters give by remainder. */
  function Choice(x: nat, y: nat, sizes: seq<nat>): (r: (nat, nat))
    requires sizes != [] && forall i :: 0 <= i < |sizes| ==> sizes[i] > 1
    ensures r.0 < |sizes| && 0 < r.1 < sizes[r.0]
  {
    (x % |sizes|, y % (sizes[x % |sizes|] - 1) + 1)
  }

  /** The first counter chooses one of the groups, the second one of the slots behind the reserved one. */
  ghost predicate Fair(x: nat, y: nat, sizes: seq<nat>, g: nat, w: nat) {
    g < |sizes| && x % |sizes| == g && 0 < w < sizes[g] && y % (sizes[g] - 1) == w - 1
  }

  lemma ChoiceIsFair(x: nat, y: nat, sizes: seq<nat>)
    requires sizes != [] && forall i :: 0 <= i < |sizes| ==> sizes[i] > 1
    ensures Fair(x, y, sizes, Choice(x, y, sizes).0, Choice(x, y, sizes).1)
  {
  }

  /** One more, in 16 bits. */
  function Successor(x: u16): u16 {
    if x == 0xFFFF then 0 else x + 1
  }

  lemma SuccessorCounts(x: u16)
    ensures Counter(x, 1) == Successor(x)
  {
  }

  /** The target of call `n` from counters `a` and `b`, when there are `gs` groups of `ws` workers, whose
      slots are counted from 1. */
  function Target(a: nat, b: nat, gs: nat, ws: nat, n: nat): (nat, nat)
    requires gs > 0 && ws > 0
  {
    (Counter(a, n) % gs, Counter(b, n) % ws + 1)
  }

  ghost predicate ChosenBy(targets: seq<(nat, nat)>, a: nat, b: nat, gs: nat, ws: nat)
    requires gs > 0 && ws > 0
  {
    forall n :: 0 <= n < |targets| ==> targets[n] == Target(a, b, gs, ws, n)
  }

  /** As many calls as there are pairs of a group and a worker, during which no counter wraps. */
  predicate FullRound(calls: nat, a: nat, b: nat, gs: nat, ws: nat) {
    calls == gs * ws && a + calls <= COUNTER && b + calls <= COUNTER
  }

  /** The tasks that went to one worker, in order. */
  function TasksFor(tasks: seq<nat>, targets: seq<(nat, nat)>, to: (nat, nat)): seq<nat>
    requires |tasks| == |targets|
  {
    var n := |tasks| - 1;
    if tasks == [] then [] else TasksFor(tasks[..n], targets[..n], to) + (if targets[n] == to then [tasks[n]] else [])
  }

  lemma NextTask(tasks: seq<nat>, targets: seq<(nat, nat)>, n: nat, target: (nat, nat))
    requires n == |targets| < |tasks|
    ensures forall to :: TasksFor(tasks[..n + 1], targets + [target], to) == TasksFor(tasks[..n], targets, to) + if target == to then [tasks[n]] else []
  {
    assert tasks[..n + 1][..n] == tasks[..n] && (targets + [target])[..n] == targets;
  }

  lemma NoTargets(a: u16, b: u16, gs: nat, ws: nat)
    requires gs > 0 && ws > 0
    ensures ChosenBy([], a, b, gs, ws) && Counter(a, 0) == a && Counter(b, 0) == b
    ensures forall to :: TasksFor([], [], to) == []
  {
  }

  lemma NextTarget(targets: seq<(nat, nat)>, a: nat, b: nat, sizes: seq<nat>, ws: nat)
    requires ws > 0 && sizes != [] && (forall i :: 0 <= i < |sizes| ==> sizes[i] == ws + 1) && ChosenBy(targets, a, b, |sizes|, ws)
    ensures ChosenBy(targets + [Choice(Counter(a, |targets|), Counter(b, |targets|), sizes)], a, b, |sizes|, ws)
  {
    hide Counter;
    var n, choice := |targets|, Choice(Counter(a, |targets|), Counter(b, |targets|), sizes);
    assert choice == Target(a, b, |sizes|, ws, n);
    assert forall k :: 0 <= k < n ==> (targets + [choice])[k] == targets[k];
  }

  lemma NextCount(a: nat, n: nat)
    ensures Counter(Counter(a, n), 1) == Counter(a, n + 1)
  {
  }

  /** What was deferred to a worker. */
  function DeferredTo(deferred: map<(nat, nat), seq<nat>>, to: (nat, nat)): seq<nat> {
    if to in deferred then deferred[to] else []
  }

  lemma NextDeferred(before: map<(nat, nat), seq<nat>>, to: (nat, nat), task: nat)
    ensures forall other :: DeferredTo(before[to := DeferredTo(before, to) + [task]], other) == DeferredTo(before, other) + if other == to then [task] else []
  {
  }

  /** Exactly one call goes to the worker `to`. */
  ghost predicate ChosenOnce(targets: seq<(nat, nat)>, to: (nat, nat)) {
    exists n :: 0 <= n < |targets| && targets[n] == to && forall m :: 0 <= m < |targets| && targets[m] == to ==> m == n
  }

  ghost predicate EveryPairOnce(targets: seq<(nat, nat)>, gs: nat, ws: nat) {
    forall g: nat, w: nat :: g < gs && 0 < w <= ws ==> ChosenOnce(targets, (g, w))
  }

  /** Slot 0 of a group's workers is reserved and empty; the others are workers. */
  class Scheduler {
    const assumePowerOfTwoGroups: bool
    const assumePowerOfTwoWorkers: bool
    var rrLastIndex: u16
    var rrLastIndex2: u16
    /** What was deferred to each worker, by group and slot. */
    var deferred: map<(nat, nat), seq<nat>>

    constructor (groups: bool, workers: bool)
      ensures rrLastIndex == 0 && rrLastIndex2 == 0 && deferred == map[]
      ensures assumePowerOfTwoGroups == groups && assumePowerOfTwoWorkers == workers
    {
      assumePowerOfTwoGroups, assumePowerOfTwoWorkers := groups, workers;
      rrLastIndex, rrLastIndex2, deferred := 0, 0, map[];
    }

    /** Whichever branch is configured, the task goes to the group and the worker that the counters
        give by remainder, never to the reserved slot; `sizes` are the sizes of the groups' worker
        arrays, and the masks are configured only for powers of two. */
    method ScheduleTask(sizes: seq<nat>, task: nat) returns (g: nat, w: nat)
      requires sizes != [] && forall i :: 0 <= i < |sizes| ==> sizes[i] > 1
      requires assumePowerOfTwoGroups ==> IsPow2(|sizes|)
      requires assumePowerOfTwoWorkers ==> forall i :: 0 <= i < |sizes| ==> IsPow2(sizes[i] - 1)
      modifies this
      ensures (g, w) == Choice(old(rrLastIndex), old(rrLastIndex2), sizes)
      ensures rrLastIndex == Counter(old(rrLastIndex), 1) && rrLastIndex2 == Counter(old(rrLastIndex2), 1)
      ensures Fair(old(rrLastIndex), old(rrLastIndex2), sizes, g, w)
      ensures rrLastIndex == Successor(old(rrLastIndex)) && rrLastIndex2 == Successor(old(rrLastIndex2))
      ensures deferred == old(deferred)[(g, w) := DeferredTo(old(deferred), (g, w)) + [task]]
    {
      hide Fair, Successor;
      ChoiceIsFair(rrLastIndex, rrLastIndex2, sizes);
      SuccessorCounts(rrLastIndex);
      SuccessorCounts(rrLastIndex2);
      if assumePowerOfTwoGroups {
        ghost var k: nat :| |sizes| == Pow2(k);
        MaskIsModulo(rrLastIndex, k);
        g := And(rrLastIndex, |sizes| - 1);
      } else {
        g := rrLastIndex % |sizes|;
      }
      rrLastIndex := (rrLastIndex + 1) % COUNTER;
      var workers := sizes[g] - 1;
      if assumePowerOfTwoWorkers {
        ghost var k: nat :| workers == Pow2(k);
        MaskIsModulo(rrLastIndex2, k);
        w := And(rrLastIndex2, workers - 1) + 1;
      } else {
        w := rrLastIndex2 % workers + 1;
      }
      rrLastIndex2 := (rrLastIndex2 + 1) % COUNTER;
      deferred := deferred[(g, w) := DeferredTo(deferred, (g, w)) + [task]];
    }

    /** Consecutive calls for groups of equal size, and the targets they choose. */
    method ScheduleTasks(sizes: seq<nat>, ws: nat, tasks: seq<nat>) returns (targets: seq<(nat, nat)>)
      requires sizes != [] && ws > 0 && forall i :: 0 <= i < |sizes| ==> sizes[i] == ws + 1
      requires assumePowerOfTwoGroups ==> IsPow2(|sizes|)
      requires assumePowerOfTwoWorkers ==> IsPow2(ws)
      modifies this
      ensures ChosenBy(targets, old(rrLastIndex), old(rrLastIndex2), |sizes|, ws) && |targets| == |tasks|
      ensures rrLastIndex == Counter(old(rrLastIndex), |tasks|) && rrLastIndex2 == Counter(old(rrLastIndex2), |tasks|)
      ensures forall to :: DeferredTo(deferred, to) == DeferredTo(old(deferred), to) + TasksFor(tasks, targets, to)
      ensures FullRound(|tasks|, old(rrLastIndex), old(rrLastIndex2), |sizes|, ws) ==>
                (EveryPairOnce(targets, |sizes|, ws) <==> Coprime(|sizes|, ws))
    {
      hide Counter, Choice, Fair, Successor, Target, FullRound, DeferredTo, ChosenBy, TasksFor, IsPow2, EveryPairOnce, Coprime;
      ghost var a, b, before := rrLastIndex, rrLastIndex2, deferred;
      targets := [];
      NoTargets(a, b, |sizes|, ws);
      assert tasks[..0] == [];
      for n := 0 to |tasks|
        invariant |targets| == n && ChosenBy(targets, a, b, |sizes|, ws)
        invariant rrLastIndex == Counter(a, n) && rrLastIndex2 == Counter(b, n)
        invariant forall to :: DeferredTo(deferred, to) == DeferredTo(before, to) + TasksFor(tasks[..n], targets, to)
      {
        ghost var now := deferred;
        var g, w := ScheduleTask(sizes, tasks[n]);
        NextDeferred(now, (g, w), tasks[n]);
        NextTask(tasks, targets, n, (g, w));
        NextTarget(targets, a, b, sizes, ws);
        NextCount(a, n);
        NextCount(b, n);
        targets := targets + [(g, w)];
      }
      assert tasks[..|tasks|] == tasks;
      if FullRound(|tasks|, a, b, |sizes|, ws) {
        EveryPairOnceIffCoprime(targets, a, b, |sizes|, ws);
      }
    }
  }

  // ---- which pairs are reached

  /** From counters `a` and `b`, call `n` goes to worker `w`, counted from 0, of group `g`, when there are
      `gs` groups of `ws` workers and no counter wraps. */
  ghost predicate Hits(a: nat, b: nat, gs: nat, ws: nat, n: nat, g: nat, w: nat)
    requires gs > 0 && ws > 0
  {
    (a + n) % gs == g && (b + n) % ws == w
  }

  /** After so many calls the targets repeat: the least common multiple. */
  function Period(gs: nat, ws: nat): nat
    requires gs > 0 && ws > 0
  {
    gs / Gcd(gs, ws) * ws
  }

  lemma ExactQuotient(d: nat, n: nat)
    requires d > 0 && Divides(d, n)
    ensures n == n / d * d
  {
    var k :| n == k * d;
    Remainder(n, d, k, 0);
  }

  /** With `gs == p * d` and `ws == q * d` the period is `p * q * d`. */
  lemma PeriodFactors(gs: nat, ws: nat) returns (p: nat, q: nat, d: nat)
    requires gs > 0 && ws > 0
    ensures d == Gcd(gs, ws) && gs == p * d && ws == q * d && p > 0 && q > 0
    ensures Period(gs, ws) == p * ws == q * gs > 0
  {
    d := Gcd(gs, ws);
    GcdDivides(gs, ws);
    ExactQuotient(d, gs);
    ExactQuotient(d, ws);
    p, q := gs / d, ws / d;
    PositiveFactors(p, d, gs);
    PositiveFactors(q, d, ws);
    Exchange(p, q, d, gs, ws);
    MulGrows(1, p, ws);
  }

  lemma PositiveFactors(p: int, d: nat, n: nat)
    requires n == p * d && n > 0
    ensures p > 0
  {
    if p <= 0 {
      MulGrows(p, 0, d);
    }
  }

  lemma Exchange(p: int, q: int, d: int, gs: int, ws: int)
    requires gs == p * d && ws == q * d
    ensures p * ws == q * gs
  {
    MulAssoc(p, q, d);
    MulAssoc(q, p, d);
    assert p * q == q * p;
  }

  lemma PeriodIsCommon(gs: nat, ws: nat)
    requires gs > 0 && ws > 0
    ensures Divides(gs, Period(gs, ws)) && Divides(ws, Period(gs, ws)) && Period(gs, ws) > 0
  {
    var p, q, d := PeriodFactors(gs, ws);
  }

  /** A number that is congruent to `p` by `gs` and to `q` by `ws`. */
  lemma CommonResidue(gs: nat, ws: nat, p: int, q: int) returns (n: int)
    requires gs > 0 && ws > 0 && Congruent(p, q, Gcd(gs, ws))
    ensures Congruent(n, p, gs) && Congruent(n, q, ws)
  {
    var (d, x, y) := Euclid(gs, ws);
    var k :| p - q == k * d;
    n := p + -k * x * gs;
    assert n - p == (-k * x) * gs;
    assert k * d == k * (x * gs + y * ws) == k * x * gs + k * y * ws by {
      MulDistributes(x * gs, y * ws, k);
      MulAssoc(k, x, gs);
      MulAssoc(k, y, ws);
    }
    assert n - q == (k * y) * ws;
  }

  /** The same number modulo `m` in the window of length `m` from `start`. */
  lemma IntoWindow(n: int, start: nat, m: nat) returns (r: nat)
    requires m > 0
    ensures start <= r < start + m && Congruent(r, n, m)
  {
    r := start + (n - start) % m;
    var q := (n - start) / m;
    assert n - start == q * m + (n - start) % m;
    assert r - n == -q * m;
  }

  /** What two calls with the same target are apart is a multiple of the period. */
  lemma SameTargetApart(gs: nat, ws: nat, k: int)
    requires gs > 0 && ws > 0 && Divides(gs, k) && Divides(ws, k)
    ensures Divides(Period(gs, ws), k)
  {
    var p, q, d := PeriodFactors(gs, ws);
    var (e, x, y) := Euclid(gs, ws);
    var s: int :| k == s * gs;
    var t: int :| k == t * ws;
    var l := Period(gs, ws);
    Unit(p, q, d, x, y, gs, ws);
    assert k == k * (x * p + y * q);
    assert k * (x * p) == (x * t) * l by { Regroup(k, x, p, t, ws, l); }
    assert k * (y * q) == (y * s) * l by { Regroup(k, y, q, s, gs, l); }
    MulDistributes(x * p, y * q, k);
    MulDistributes(x * t, y * s, l);
    assert k == (x * t + y * s) * l;
  }

  lemma Regroup(k: int, x: int, p: int, t: int, ws: int, l: int)
    requires k == t * ws && l == p * ws
    ensures k * (x * p) == (x * t) * l
  {
    assert k * (x * p) == (t * ws) * (x * p) == (x * t) * (p * ws);
  }

  lemma Unit(p: int, q: int, d: int, x: int, y: int, gs: int, ws: int)
    requires d > 0 && gs == p * d && ws == q * d && d == x * gs + y * ws
    ensures x * p + y * q == 1
  {
    var u := x * p + y * q;
    assert u * d == d by {
      MulDistributes(x * p, y * q, d);
      MulAssoc(x, p, d);
      MulAssoc(y, q, d);
    }
    if u > 1 {
      MulGrows(2, u, d);
    } else if u < 1 {
      MulGrows(u, 0, d);
    }
  }

  /** A call hits a pair exactly if its number is congruent to both distances. */
  lemma HitsIff(a: nat, b: nat, gs: nat, ws: nat, n: nat, g: nat, w: nat)
    requires gs > 0 && ws > 0 && g < gs && w < ws
    ensures Hits(a, b, gs, ws, n, g, w) <==> Congruent(n, g - a, gs) && Congruent(n, w - b, ws)
  {
    RemainderIff(a + n, g, gs);
    RemainderIff(b + n, w, ws);
    assert a + n - g == n - (g - a) && b + n - w == n - (w - b);
  }

  /** In any window of one period every pair is hit at most once; and it is hit if and only if the
      distances of its group and of its worker from the counters are congruent by the greatest
      common divisor of the numbers of groups and workers. */
  lemma {:induction false} OncePerPeriod(a: nat, b: nat, gs: nat, ws: nat, start: nat, g: nat, w: nat)
    requires gs > 0 && ws > 0 && g < gs && w < ws
    ensures forall n: nat, m: nat ::
              (start <= n < start + Period(gs, ws) && start <= m < start + Period(gs, ws)
               && Hits(a, b, gs, ws, n, g, w) && Hits(a, b, gs, ws, m, g, w)) ==> n == m
    ensures Congruent(g - a, w - b, Gcd(gs, ws)) <==>
            exists n: nat :: start <= n < start + Period(gs, ws) && Hits(a, b, gs, ws, n, g, w)
  {
    var l := Period(gs, ws);
    PeriodIsCommon(gs, ws);
    forall n: nat, m: nat | start <= n < start + l && start <= m < start + l
                            && Hits(a, b, gs, ws, n, g, w) && Hits(a, b, gs, ws, m, g, w)
      ensures n == m
    {
      HitsTwice(a, b, gs, ws, n, m, g, w);
      CongruentNumbersAreEqual(n, m, l);
    }
    if Congruent(g - a, w - b, Gcd(gs, ws)) {
      var n := HitInWindow(a, b, gs, ws, start, g, w);
    }
    if n: nat :| start <= n < start + l && Hits(a, b, gs, ws, n, g, w) {
      HitsIff(a, b, gs, ws, n, g, w);
      GcdDivides(gs, ws);
      DividesTrans(Gcd(gs, ws), gs, n - (g - a));
      DividesTrans(Gcd(gs, ws), ws, n - (w - b));
      CongruentTrans(n, g - a, g - a, Gcd(gs, ws)) by { CongruentRefl(g - a, Gcd(gs, ws)); }
      CongruentTrans(g - a, n, w - b, Gcd(gs, ws));
    }
  }

  lemma HitsTwice(a: nat, b: nat, gs: nat, ws: nat, n: nat, m: nat, g: nat, w: nat)
    requires gs > 0 && ws > 0 && g < gs && w < ws && Hits(a, b, gs, ws, n, g, w) && Hits(a, b, gs, ws, m, g, w)
    ensures Congruent(n, m, Period(gs, ws))
  {
    HitsIff(a, b, gs, ws, n, g, w);
    HitsIff(a, b, gs, ws, m, g, w);
    DividesCombination(gs, n - (g - a), m - (g - a), 1, -1);
    DividesCombination(ws, n - (w - b), m - (w - b), 1, -1);
    assert 1 * (n - (g - a)) + -1 * (m - (g - a)) == n - m;
    assert 1 * (n - (w - b)) + -1 * (m - (w - b)) == n - m;
    SameTargetApart(gs, ws, n - m);
  }

  lemma HitInWindow(a: nat, b: nat, gs: nat, ws: nat, start: nat, g: nat, w: nat) returns (n: nat)
    requires gs > 0 && ws > 0 && g < gs && w < ws && Congruent(g - a, w - b, Gcd(gs, ws))
    ensures start <= n < start + Period(gs, ws) && Hits(a, b, gs, ws, n, g, w)
  {
    PeriodIsCommon(gs, ws);
    var r := CommonResidue(gs, ws, g - a, w - b);
    n := IntoWindow(r, start, Period(gs, ws));
    DividesTrans(gs, Period(gs, ws), n - r);
    DividesTrans(ws, Period(gs, ws), n - r);
    CongruentTrans(n, r, g - a, gs);
    CongruentTrans(n, r, w - b, ws);
    HitsIff(a, b, gs, ws, n, g, w);
  }

  lemma CoprimeHitsOnce(a: nat, b: nat, gs: nat, ws: nat, g: nat, w: nat) returns (n: nat)
    requires gs > 0 && ws > 0 && Gcd(gs, ws) == 1 && g < gs && w < ws
    ensures n < gs * ws && Hits(a, b, gs, ws, n, g, w)
    ensures forall m: nat :: m < gs * ws && Hits(a, b, gs, ws, m, g, w) ==> m == n
  {
    assert Period(gs, ws) == gs * ws;
    assert g - a - (w - b) == (g - a - (w - b)) * 1;
    n := HitInWindow(a, b, gs, ws, 0, g, w);
    OncePerPeriod(a, b, gs, ws, 0, g, w);
  }

  /** With a common divisor the worker next to the first target's is never chosen with its group. */
  lemma NeighbourIsMissed(a: nat, b: nat, gs: nat, ws: nat, n: nat)
    requires gs > 0 && ws > 0 && Gcd(gs, ws) > 1
    ensures !Hits(a, b, gs, ws, n, a % gs, (b + 1) % ws)
  {
    var d, g, w := Gcd(gs, ws), a % gs, (b + 1) % ws;
    if Hits(a, b, gs, ws, n, g, w) {
      OncePerPeriod(a, b, gs, ws, n, g, w);
      PeriodIsCommon(gs, ws);
      RemainderIsCongruent(a, gs);
      RemainderIsCongruent(b + 1, ws);
      GcdDivides(gs, ws);
      DividesTrans(d, gs, a - g);
      DividesTrans(d, ws, b + 1 - w);
      DividesCombination(d, a - g, g - a - (w - b), 1, 1);
      assert 1 * (a - g) + 1 * (g - a - (w - b)) == b - w;
      DividesCombination(d, b + 1 - w, b - w, 1, -1);
      assert 1 * (b + 1 - w) + -1 * (b - w) == 1;
      assert Congruent(1, 0, d);
      CongruentNumbersAreEqual(1, 0, d);
    }
  }

  /** From equal counters, in particular from the start, exactly the pairs are reached whose group and
      worker are congruent by the greatest common divisor. */
  lemma {:induction false} ReachedFromEqualCounters(a: nat, gs: nat, ws: nat, g: nat, w: nat)
    requires gs > 0 && ws > 0 && g < gs && w < ws
    ensures (exists n: nat :: Hits(a, a, gs, ws, n, g, w)) <==> Congruent(g, w, Gcd(gs, ws))
  {
    assert g - a - (w - a) == g - w;
    PeriodIsCommon(gs, ws);
    OncePerPeriod(a, a, gs, ws, 0, g, w);
    if n: nat :| Hits(a, a, gs, ws, n, g, w) {
      OncePerPeriod(a, a, gs, ws, n, g, w);
    }
  }

  // ---- what `ScheduleTask` chooses

  /** As long as no counter wraps the targets are the pairs hit. */
  lemma TargetWithoutWrap(a: nat, b: nat, gs: nat, ws: nat, n: nat, g: nat, w: nat)
    requires gs > 0 && ws > 0 && a + n < COUNTER && b + n < COUNTER
    ensures Target(a, b, gs, ws, n) == (g, w + 1) <==> Hits(a, b, gs, ws, n, g, w)
  {
    Remainder(a + n, COUNTER, 0, a + n);
    Remainder(b + n, COUNTER, 0, b + n);
  }

  lemma ChosenWhereHit(targets: seq<(nat, nat)>, a: nat, b: nat, gs: nat, ws: nat, g: nat, w: nat)
    requires gs > 0 && ws > 0 && ChosenBy(targets, a, b, gs, ws) && a + |targets| <= COUNTER && b + |targets| <= COUNTER
    ensures forall n :: 0 <= n < |targets| ==> (targets[n] == (g, w + 1) <==> Hits(a, b, gs, ws, n, g, w))
  {
    hide Target, Hits;
    forall n | 0 <= n < |targets| ensures targets[n] == (g, w + 1) <==> Hits(a, b, gs, ws, n, g, w) {
      TargetWithoutWrap(a, b, gs, ws, n, g, w);
    }
  }

  /** As many consecutive calls as there are pairs of a group and a worker choose every pair exactly once, from
      whatever counters that do not wrap meanwhile, if and only if the two numbers are coprime. */
  lemma {:induction false} EveryPairOnceIffCoprime(targets: seq<(nat, nat)>, a: nat, b: nat, gs: nat, ws: nat)
    requires gs > 0 && ws > 0 && ChosenBy(targets, a, b, gs, ws) && FullRound(|targets|, a, b, gs, ws)
    ensures EveryPairOnce(targets, gs, ws) <==> Coprime(gs, ws)
  {
    hide Hits, ChosenBy, Coprime;
    CoprimeIff(gs, ws);
    if Gcd(gs, ws) == 1 {
      forall g: nat, w: nat | g < gs && 0 < w <= ws ensures ChosenOnce(targets, (g, w)) {
        var n := CoprimeHitsOnce(a, b, gs, ws, g, w - 1);
        ChosenWhereHit(targets, a, b, gs, ws, g, w - 1);
        assert targets[n] == (g, w);
      }
    } else {
      var g, w := a % gs, (b + 1) % ws;
      ChosenWhereHit(targets, a, b, gs, ws, g, w);
      forall n | 0 <= n < |targets| ensures targets[n] != (g, w + 1) {
        NeighbourIsMissed(a, b, gs, ws, n);
      }
      assert !ChosenOnce(targets, (g, w + 1));
    }
  }

  // ---- counters that wrap

  lemma ParityOfRemainder(x: nat, k: nat)
    requires 1 <= k <= 16
    ensures x % COUNTER % Pow2(k) % 2 == x % 2
  {
    assert Pow2(8) == 256;
    PowerSum(8, 8);
    RemainderOfRemainder(x, 0x8000, 2);
    PowerSum(k - 1, 1);
    assert Pow2(1) == 2;
    RemainderOfRemainder(x % COUNTER, Pow2(k - 1), 2);
  }

  /** When both numbers are powers of two from 2 on, which the masks are made for, half of the pairs are
      never chosen, however often the counters wrap. */
  lemma PowersOfTwoMissPairs(a: nat, b: nat, i: nat, j: nat, n: nat, g: nat, w: nat)
    requires 1 <= i <= 16 && 1 <= j <= 16 && (g + w) % 2 != (a + b) % 2
    ensures Target(a, b, Pow2(i), Pow2(j), n) != (g, w + 1)
  {
    ParityOfRemainder(a + n, i);
    ParityOfRemainder(b + n, j);
    var (x, y) := ((a + n) % COUNTER % Pow2(i), (b + n) % COUNTER % Pow2(j));
    SameParity(a, b, n, x, y);
    hide Pow2;
  }

  lemma SameParity(a: nat, b: nat, n: nat, x: nat, y: nat)
    requires x % 2 == (a + n) % 2 && y % 2 == (b + n) % 2
    ensures (x + y) % 2 == (a + b) % 2
  {
  }
}
