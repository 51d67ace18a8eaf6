/** What start-time fair queuing promises (crates/brokkr-control/src/fairqueue.rs):
    runs of pushes and pops from an empty queue with fixed weights. */
module Fairness {
  import opened Common
  import opened FairQueue

  datatype Event<J> = Push(tenant: TenantId, job: J) | Pop

  function Step<J>(q: Queue<J>, e: Event<J>): Queue<J> {
    match e
    case Push(t, job) => Pushed(q, t, job)
    case Pop => Popped(q)
  }

  /** How far each tenant's clock moves per job. */
  type Strides = TenantId -> nat

  function StepBy<J>(q: Queue<J>, e: Event<J>, s: Strides): Queue<J> {
    match e
    case Push(t, job) => PushedBy(q, t, job, s(t))
    case Pop => Popped(q)
  }

  /** A run long enough for no tag to reach the largest `u64`. */
  ghost predicate IsRun<J>(qs: seq<Queue<J>>, es: seq<Event<J>>) {
    && |qs| == |es| + 1 && qs[0].entries == [] && qs[0].clock == 0 && qs[0].finish == map[]
    && |es| * COST <= U64_MAX
    && forall i :: 0 <= i < |es| ==> qs[i + 1] == Step(qs[i], es[i])
  }

  ghost predicate IsRunBy<J>(qs: seq<Queue<J>>, es: seq<Event<J>>, s: Strides) {
    && |qs| == |es| + 1 && qs[0].entries == [] && qs[0].clock == 0 && qs[0].finish == map[]
    && |es| * COST <= U64_MAX && (forall t :: s(t) <= COST)
    && forall i :: 0 <= i < |es| ==> qs[i + 1] == StepBy(qs[i], es[i], s)
  }

  // ----- tags per tenant -----

  function Count<J>(entries: seq<Entry<J>>, t: TenantId): nat {
    if entries == [] then 0
    else Count(entries[..|entries| - 1], t) + (if entries[|entries| - 1].tenant == t then 1 else 0)
  }

  /** `n` times `d`. */
  function Span(n: nat, d: nat): nat { if n == 0 then 0 else Span(n - 1, d) + d }

  /** The tag of a tenant's oldest queued job, or of its next one if it came back now. */
  function Head<J>(q: Queue<J>, t: TenantId, d: nat): int { FinishOf(q, t) - Span(Count(q.entries, t), d) }

  ghost predicate HasTag<J(!new)>(entries: seq<Entry<J>>, t: TenantId, s: int) {
    exists e :: e in entries && e.tenant == t && e.start == s
  }

  function Tag(h: int, d: nat, k: nat): int { h + Span(k, d) }

  /** `s` is one of `n` tags, `d` apart, from `h` up. */
  ghost predicate Rung(s: int, h: int, d: nat, n: nat) {
    exists k: nat :: k < n && s == Tag(h, d, k)
  }

  /** The tags of tenant `t` are `n` tags, `d` apart, from `h` up: each once. */
  ghost predicate Ladder<J(!new)>(entries: seq<Entry<J>>, t: TenantId, h: int, d: nat, n: nat) {
    && (forall e {:trigger Rung(e.start, h, d, n)} :: e in entries && e.tenant == t ==> Rung(e.start, h, d, n))
    && (forall k: nat {:trigger HasTag(entries, t, Tag(h, d, k))} :: k < n ==> HasTag(entries, t, Tag(h, d, k)))
    && (forall i, j :: 0 <= i < j < |entries| && entries[i].tenant == entries[j].tenant == t && d > 0 ==>
         entries[i].start != entries[j].start)
  }

  ghost predicate Lane<J(!new)>(q: Queue<J>, t: TenantId, d: nat) {
    && Ladder(q.entries, t, Head(q, t, d), d, Count(q.entries, t))
    && Head(q, t, d) <= q.clock + d
    && (Count(q.entries, t) > 0 ==> q.clock <= Head(q, t, d))
  }

  ghost predicate Lanes<J(!new)>(q: Queue<J>, s: Strides) { forall t :: Lane(q, t, s(t)) }

  ghost predicate Bounded<J>(q: Queue<J>, n: nat) {
    q.clock <= n && forall t :: FinishOf(q, t) <= n
  }

  lemma {:induction false} CountJoin<J>(a: seq<Entry<J>>, b: seq<Entry<J>>, t: TenantId)
    ensures Count(a + b, t) == Count(a, t) + Count(b, t)
  {
    if b == [] {
      assert a + b == a;
    } else {
      assert (a + b)[..|a + b| - 1] == a + b[..|b| - 1];
      CountJoin(a, b[..|b| - 1], t);
    }
  }

  lemma {:induction false} CountOne<J>(e: Entry<J>, t: TenantId)
    ensures Count([e], t) == (if e.tenant == t then 1 else 0)
  {
    assert [e][..0] == [];
    assert Count([e][..0], t) == 0;
  }

  lemma {:induction false} CountRemoved<J>(entries: seq<Entry<J>>, i: nat, t: TenantId)
    requires i < |entries|
    ensures Count(SwapRemoved(entries, i), t) + (if entries[i].tenant == t then 1 else 0) == Count(entries, t)
  {
    var n := |entries| - 1;
    var a, e := entries[..i], [entries[i]];
    CountOne(entries[i], t);
    if i == n {
      assert entries == a + e;
      CountJoin(a, e, t);
    } else {
      var mid, last := entries[i + 1..n], [entries[n]];
      assert entries == ((a + e) + mid) + last;
      CountJoin((a + e) + mid, last, t);
      CountJoin(a + e, mid, t);
      CountJoin(a, e, t);
      CountJoin(a + last, mid, t);
      CountJoin(a, last, t);
    }
  }

  lemma {:induction false} CountPositive<J>(entries: seq<Entry<J>>, e: Entry<J>)
    requires e in entries
    ensures Count(entries, e.tenant) > 0
  {
    var n := |entries| - 1;
    assert entries == entries[..n] + [entries[n]];
    if e != entries[n] {
      CountPositive(entries[..n], e);
    }
  }

  lemma {:induction false} CountWitness<J>(entries: seq<Entry<J>>, t: TenantId) returns (e: Entry<J>)
    requires Count(entries, t) > 0
    ensures e in entries && e.tenant == t
  {
    var n := |entries| - 1;
    if entries[n].tenant == t {
      e := entries[n];
    } else {
      e := CountWitness(entries[..n], t);
    }
  }

  /** Where the entry at `k` of the shorter sequence was before. */
  function Origin(size: nat, i: nat, k: nat): int { if k == i then size - 1 else k }

  lemma RemovedAt<T>(s: seq<T>, i: nat, k: nat)
    requires i < |s| && k < |s| - 1
    ensures |SwapRemoved(s, i)| == |s| - 1 && SwapRemoved(s, i)[k] == s[Origin(|s|, i, k)]
  {
  }

  lemma StillIn<T>(s: seq<T>, i: nat, m: nat)
    requires i < |s| && m < |s| && m != i
    ensures s[m] in SwapRemoved(s, i)
  {
    var k := if m == |s| - 1 then i else m;
    RemovedAt(s, i, k);
    assert SwapRemoved(s, i)[k] == s[m];
  }

  lemma {:induction false} SpanMonotone(a: nat, b: nat, d: nat)
    requires a <= b
    ensures Span(a, d) <= Span(b, d)
  {
    if a < b {
      SpanMonotone(a, b - 1, d);
    }
  }

  lemma {:induction false} SpanZero(n: nat)
    ensures Span(n, 0) == 0
  {
    if n > 0 {
      SpanZero(n - 1);
    }
  }

  /** The job popped is the oldest of its tenant, and no queued tag is lower. */
  lemma PopsHead<J(!new)>(q: Queue<J>, s: Strides, i: nat)
    requires Lanes(q, s) && IsFirstMin(q.entries, i)
    ensures Count(q.entries, q.entries[i].tenant) > 0
    ensures q.entries[i].start == Head(q, q.entries[i].tenant, s(q.entries[i].tenant))
    ensures forall t :: Count(q.entries, t) > 0 ==> q.entries[i].start <= Head(q, t, s(t))
  {
    var e := q.entries[i];
    var d := s(e.tenant);
    CountPositive(q.entries, e);
    assert Lane(q, e.tenant, d) && Rung(e.start, Head(q, e.tenant, d), d, Count(q.entries, e.tenant));
    forall t | Count(q.entries, t) > 0 ensures e.start <= Head(q, t, s(t)) {
      assert Lane(q, t, s(t));
      assert HasTag(q.entries, t, Tag(Head(q, t, s(t)), s(t), 0));
    }
  }

  lemma LadderPush<J(!new)>(entries: seq<Entry<J>>, e: Entry<J>, h: int, d: nat, n: nat)
    requires Ladder(entries, e.tenant, h, d, n) && e.start == Tag(h, d, n)
    ensures Ladder(entries + [e], e.tenant, h, d, n + 1)
  {
    var more := entries + [e];
    forall x | x in more && x.tenant == e.tenant ensures Rung(x.start, h, d, n + 1) {
      if x in entries {
        assert Rung(x.start, h, d, n);
        var k: nat :| k < n && x.start == Tag(h, d, k);
        assert k < n + 1;
      }
    }
    forall k: nat | k < n + 1 ensures HasTag(more, e.tenant, Tag(h, d, k)) {
      if k < n {
        assert HasTag(entries, e.tenant, Tag(h, d, k));
      } else {
        assert e in more;
      }
    }
    if d > 0 {
      forall i | 0 <= i < |entries| && entries[i].tenant == e.tenant ensures entries[i].start != e.start {
        assert entries[i] in entries && Rung(entries[i].start, h, d, n);
        var k: nat :| k < n && entries[i].start == Tag(h, d, k);
        SpanMonotone(k + 1, n, d);
      }
    }
  }

  lemma LadderOther<J(!new)>(entries: seq<Entry<J>>, e: Entry<J>, t: TenantId, h: int, d: nat, n: nat)
    requires Ladder(entries, t, h, d, n) && e.tenant != t
    ensures Ladder(entries + [e], t, h, d, n)
  {
    forall k: nat | k < n ensures HasTag(entries + [e], t, Tag(h, d, k)) {
      assert HasTag(entries, t, Tag(h, d, k));
    }
  }

  /** An empty lane may restart anywhere. */
  lemma LadderEmpty<J(!new)>(entries: seq<Entry<J>>, t: TenantId, h: int, h': int, d: nat)
    requires Ladder(entries, t, h, d, 0)
    ensures Ladder(entries, t, h', d, 0)
  {
    forall e | e in entries ensures e.tenant != t {
      assert e.tenant == t ==> Rung(e.start, h, d, 0);
    }
  }

  lemma {:induction false} LaneFrom<J(!new)>(q: Queue<J>, f: TenantId, d: nat, h: int, n: nat)
    requires Ladder(q.entries, f, h, d, n) && n == Count(q.entries, f)
    requires FinishOf(q, f) == Tag(h, d, n) && h <= q.clock + d && (n > 0 ==> q.clock <= h)
    ensures Lane(q, f, d) && Head(q, f, d) == h
  {
    assert Head(q, f, d) == h;
  }

  lemma {:induction false} PushOther<J(!new)>(q: Queue<J>, t: TenantId, job: J, dt: nat, f: TenantId, d: nat)
    requires Lane(q, f, d) && f != t
    ensures Lane(PushedBy(q, t, job, dt), f, d) && Head(PushedBy(q, t, job, dt), f, d) == Head(q, f, d)
    ensures Count(PushedBy(q, t, job, dt).entries, f) == Count(q.entries, f)
  {
    var e := Entry(StartFor(q, t), t, job);
    CountJoin(q.entries, [e], f);
    CountOne(e, f);
    LadderOther(q.entries, e, f, Head(q, f, d), d, Count(q.entries, f));
    LaneFrom(PushedBy(q, t, job, dt), f, d, Head(q, f, d), Count(q.entries, f));
  }

  lemma TagNext(h: int, d: nat, n: nat)
    ensures Tag(h, d, n + 1) == Tag(h, d, n) + d
  {
  }

  /** The head a tenant's lane has once it pushes: its own if it is queued, else its start tag. */
  lemma OwnHead<J(!new)>(q: Queue<J>, t: TenantId, d: nat) returns (h: int)
    requires Lane(q, t, d)
    ensures Ladder(q.entries, t, h, d, Count(q.entries, t)) && StartFor(q, t) == Tag(h, d, Count(q.entries, t))
    ensures q.clock <= h <= q.clock + d && Head(q, t, d) <= h
    ensures Count(q.entries, t) > 0 ==> h == Head(q, t, d)
  {
    h := Head(q, t, d);
    if Count(q.entries, t) == 0 {
      h := StartFor(q, t);
      LadderEmpty(q.entries, t, Head(q, t, d), h, d);
    }
  }

  lemma {:induction false} PushOwn<J(!new)>(q: Queue<J>, t: TenantId, job: J, d: nat)
    requires Lane(q, t, d) && StartFor(q, t) + d <= U64_MAX
    ensures Lane(PushedBy(q, t, job, d), t, d) && Head(PushedBy(q, t, job, d), t, d) >= Head(q, t, d)
    ensures Count(PushedBy(q, t, job, d).entries, t) == Count(q.entries, t) + 1
    ensures Count(q.entries, t) > 0 ==> Head(PushedBy(q, t, job, d), t, d) == Head(q, t, d)
  {
    var e, n, p := Entry(StartFor(q, t), t, job), Count(q.entries, t), PushedBy(q, t, job, d);
    CountJoin(q.entries, [e], t);
    CountOne(e, t);
    var h := OwnHead(q, t, d);
    LadderPush(q.entries, e, h, d, n);
    TagNext(h, d, n);
    LaneFrom(p, t, d, h, n + 1);
  }

  /** A push leaves every lane in order and moves no head that is queued. */
  lemma {:induction false} PushLane<J(!new)>(q: Queue<J>, t: TenantId, job: J, s: Strides, f: TenantId)
    requires Lane(q, f, s(f)) && StartFor(q, t) + s(t) <= U64_MAX
    ensures Lane(PushedBy(q, t, job, s(t)), f, s(f))
    ensures Count(PushedBy(q, t, job, s(t)).entries, f) >= Count(q.entries, f)
    ensures Count(q.entries, f) > 0 ==> Head(PushedBy(q, t, job, s(t)), f, s(f)) == Head(q, f, s(f))
    ensures Head(PushedBy(q, t, job, s(t)), f, s(f)) >= Head(q, f, s(f))
  {
    if f == t {
      PushOwn(q, t, job, s(t));
    } else {
      PushOther(q, t, job, s(t), f, s(f));
    }
  }

  lemma LadderRemoved<J(!new)>(entries: seq<Entry<J>>, i: nat, t: TenantId, h: int, d: nat, n: nat)
    requires Ladder(entries, t, h, d, n) && i < |entries| && entries[i].tenant != t
    ensures Ladder(SwapRemoved(entries, i), t, h, d, n)
  {
    var rest := SwapRemoved(entries, i);
    forall k | 0 <= k < |rest| ensures rest[k] == entries[Origin(|entries|, i, k)] {
      RemovedAt(entries, i, k);
    }
    forall k: nat | k < n ensures HasTag(rest, t, Tag(h, d, k)) {
      assert HasTag(entries, t, Tag(h, d, k));
      var e :| e in entries && e.tenant == t && e.start == Tag(h, d, k);
      var m :| 0 <= m < |entries| && entries[m] == e;
      StillIn(entries, i, m);
    }
  }

  lemma {:induction false} LadderPop<J(!new)>(entries: seq<Entry<J>>, i: nat, h: int, d: nat, n: nat, h': int)
    requires i < |entries| && Ladder(entries, entries[i].tenant, h, d, n) && n == Count(entries, entries[i].tenant)
    requires n > 0 && entries[i].start == h && h' == h + d
    ensures Ladder(SwapRemoved(entries, i), entries[i].tenant, h', d, n - 1)
  {
    var rest, t := SwapRemoved(entries, i), entries[i].tenant;
    forall k | 0 <= k < |rest| ensures rest[k] == entries[Origin(|entries|, i, k)] {
      RemovedAt(entries, i, k);
    }
    forall e | e in rest && e.tenant == t ensures Rung(e.start, h', d, n - 1) {
      PopRung(entries, i, h, d, n, h', e);
    }
    forall k: nat | k < n - 1 ensures HasTag(rest, t, Tag(h', d, k)) {
      PopTag(entries, i, h, d, n, h', k);
    }
  }

  lemma RungUp(s: int, h: int, d: nat, n: nat, h': int)
    requires Rung(s, h, d, n) && h' == h + d && n > 1 && (d > 0 ==> s != h)
    ensures Rung(s, h', d, n - 1)
  {
    var k: nat :| k < n && s == Tag(h, d, k);
    if d > 0 {
      assert s == Tag(h', d, k - 1);
    } else {
      SpanZero(k);
      assert s == Tag(h', d, 0);
    }
  }

  lemma {:induction false} PopRung<J(!new)>(entries: seq<Entry<J>>, i: nat, h: int, d: nat, n: nat, h': int,
      e: Entry<J>)
    requires i < |entries| && Ladder(entries, entries[i].tenant, h, d, n) && n == Count(entries, entries[i].tenant)
    requires n > 0 && entries[i].start == h && h' == h + d
    requires e in SwapRemoved(entries, i) && e.tenant == entries[i].tenant
    ensures Rung(e.start, h', d, n - 1)
  {
    var rest := SwapRemoved(entries, i);
    var m :| 0 <= m < |rest| && rest[m] == e;
    RemovedAt(entries, i, m);
    CountRemoved(entries, i, e.tenant);
    CountPositive(rest, e);
    assert e in entries && Rung(e.start, h, d, n);
    RungUp(e.start, h, d, n, h');
  }

  lemma {:induction false} PopTag<J(!new)>(entries: seq<Entry<J>>, i: nat, h: int, d: nat, n: nat, h': int, k: nat)
    requires i < |entries| && Ladder(entries, entries[i].tenant, h, d, n) && n == Count(entries, entries[i].tenant)
    requires entries[i].start == h && k < n - 1 && h' == h + d
    ensures HasTag(SwapRemoved(entries, i), entries[i].tenant, Tag(h', d, k))
  {
    var t := entries[i].tenant;
    if d > 0 {
      assert Tag(h', d, k) == Tag(h, d, k + 1);
      assert HasTag(entries, t, Tag(h, d, k + 1));
      TagStays(entries, i, t, Tag(h, d, k + 1));
    } else {
      CountRemoved(entries, i, t);
      var e := CountWitness(SwapRemoved(entries, i), t);
      PopRung(entries, i, h, d, n, h', e);
      RungZero(e.start, h', d, n - 1);
      SpanZero(k);
    }
  }

  lemma TagStays<J(!new)>(entries: seq<Entry<J>>, i: nat, t: TenantId, s: int)
    requires i < |entries| && HasTag(entries, t, s) && entries[i].start != s
    ensures HasTag(SwapRemoved(entries, i), t, s)
  {
    var e :| e in entries && e.tenant == t && e.start == s;
    var m :| 0 <= m < |entries| && entries[m] == e;
    StillIn(entries, i, m);
  }

  lemma RungZero(s: int, h: int, d: nat, n: nat)
    requires Rung(s, h, d, n) && d == 0
    ensures s == h
  {
    var j: nat :| j < n && s == Tag(h, d, j);
    SpanZero(j);
  }

  lemma PopOwn<J(!new)>(q: Queue<J>, i: nat, d: nat)
    requires i < |q.entries| && Lane(q, q.entries[i].tenant, d) && Count(q.entries, q.entries[i].tenant) > 0
    requires q.entries[i].start == Head(q, q.entries[i].tenant, d)
    ensures Lane(Taken(q, i), q.entries[i].tenant, d)
    ensures Head(Taken(q, i), q.entries[i].tenant, d) == Head(q, q.entries[i].tenant, d) + d
  {
    var f := q.entries[i].tenant;
    var h, n := Head(q, f, d), Count(q.entries, f);
    CountRemoved(q.entries, i, f);
    LadderPop(q.entries, i, h, d, n, h + d);
    TagNext(h, d, n - 1);
    LaneFrom(Taken(q, i), f, d, h + d, n - 1);
  }

  lemma {:induction false} PopOther<J(!new)>(q: Queue<J>, i: nat, f: TenantId, d: nat)
    requires i < |q.entries| && q.entries[i].tenant != f && Lane(q, f, d)
    requires Count(q.entries, f) > 0 ==> q.entries[i].start <= Head(q, f, d)
    ensures Lane(Taken(q, i), f, d) && Head(Taken(q, i), f, d) == Head(q, f, d)
  {
    CountRemoved(q.entries, i, f);
    LadderRemoved(q.entries, i, f, Head(q, f, d), d, Count(q.entries, f));
    LaneFrom(Taken(q, i), f, d, Head(q, f, d), Count(q.entries, f));
  }

  /** A pop advances the head of the tenant served, and no other. */
  lemma PopLane<J(!new)>(q: Queue<J>, s: Strides, f: TenantId)
    requires Lanes(q, s) && q.entries != []
    ensures Lane(Popped(q), f, s(f))
    ensures Head(Popped(q), f, s(f)) ==
            Head(q, f, s(f)) + (if q.entries[FirstMin(q.entries)].tenant == f then s(f) else 0)
  {
    var i := FirstMin(q.entries);
    PopsHead(q, s, i);
    assert Lane(q, f, s(f));
    if q.entries[i].tenant == f {
      PopOwn(q, i, s(f));
    } else {
      PopOther(q, i, f, s(f));
    }
  }

  lemma {:induction false} StepBounded<J(!new)>(q: Queue<J>, e: Event<J>, s: Strides, n: nat)
    requires Lanes(q, s) && Bounded(q, n) && (e.Push? ==> s(e.tenant) <= COST)
    ensures Bounded(StepBy(q, e, s), n + COST)
  {
    var p := StepBy(q, e, s);
    if e == Pop && q.entries != [] {
      PopsHead(q, s, FirstMin(q.entries));
      assert FinishOf(q, q.entries[FirstMin(q.entries)].tenant) <= n;
    }
    forall f ensures FinishOf(p, f) <= n + COST {
      assert FinishOf(q, f) <= n;
    }
  }

  lemma {:induction false} StepLanes<J(!new)>(q: Queue<J>, e: Event<J>, s: Strides, n: nat)
    requires Lanes(q, s) && Bounded(q, n) && n + COST <= U64_MAX && (e.Push? ==> s(e.tenant) <= COST)
    ensures Lanes(StepBy(q, e, s), s)
  {
    forall f ensures Lane(StepBy(q, e, s), f, s(f)) {
      assert Lane(q, f, s(f));
      if e.Push? {
        assert FinishOf(q, e.tenant) <= n;
        PushLane(q, e.tenant, e.job, s, f);
      } else if q.entries != [] {
        PopLane(q, s, f);
      }
    }
  }

  /** The strides the weights give. */
  function Given<J>(q: Queue<J>): Strides { t => Stride(q, t) }

  /** A run under fixed weights is a run under the strides they give. */
  lemma {:induction false} RunGiven<J>(qs: seq<Queue<J>>, es: seq<Event<J>>)
    requires IsRun(qs, es)
    ensures IsRunBy(qs, es, Given(qs[0]))
  {
    forall i | 0 <= i < |es| ensures qs[i + 1] == StepBy(qs[i], es[i], Given(qs[0])) {
      WeightsFixed(qs, es, i);
    }
  }

  lemma {:induction false} WeightsFixed<J>(qs: seq<Queue<J>>, es: seq<Event<J>>, i: nat)
    requires IsRun(qs, es) && i < |qs|
    ensures qs[i].weights == qs[0].weights
  {
    if i > 0 {
      var k := i - 1;
      WeightsFixed(qs, es, k);
      assert qs[k + 1] == Step(qs[k], es[k]);
    }
  }

  lemma {:induction false} RunLanes<J(!new)>(qs: seq<Queue<J>>, es: seq<Event<J>>, s: Strides, i: nat)
    requires IsRunBy(qs, es, s) && i < |qs|
    ensures Lanes(qs[i], s) && Bounded(qs[i], i * COST)
  {
    if i == 0 {
      forall f ensures Lane(qs[0], f, s(f)) {
        assert Count(qs[0].entries, f) == 0;
      }
    } else {
      var k := i - 1;
      RunLanes(qs, es, s, k);
      assert qs[k + 1] == StepBy(qs[k], es[k], s);
      assert k * COST + COST == i * COST <= |es| * COST;
      StepLanes(qs[k], es[k], s, k * COST);
      StepBounded(qs[k], es[k], s, k * COST);
    }
  }

  // ----- service over an interval -----

  predicate Serves<J>(q: Queue<J>, e: Event<J>, f: TenantId) {
    e == Pop && q.entries != [] && q.entries[FirstMin(q.entries)].tenant == f
  }

  /** How many of tenant `f`'s jobs are popped from step `i` up to step `j`. */
  function Served<J>(qs: seq<Queue<J>>, es: seq<Event<J>>, i: nat, j: nat, f: TenantId): nat
    requires i <= j <= |es| < |qs|
    decreases j
  {
    if i == j then 0 else Served(qs, es, i, j - 1, f) + (if Serves(qs[j - 1], es[j - 1], f) then 1 else 0)
  }

  ghost predicate Backlogged<J>(qs: seq<Queue<J>>, i: nat, j: nat, f: TenantId) {
    forall k :: i <= k <= j < |qs| ==> Count(qs[k].entries, f) > 0
  }

  lemma {:induction false} SpanIs(n: nat, d: nat)
    ensures Span(n, d) == n * d
  {
    if n > 0 {
      SpanIs(n - 1, d);
      assert n * d == (n - 1) * d + d;
    }
  }

  /** The head of lane `f` advances by `d` if `served`. */
  ghost predicate Advances<J>(q: Queue<J>, p: Queue<J>, f: TenantId, d: nat, served: bool) {
    && Head(p, f, d) >= Head(q, f, d) + (if served then d else 0)
    && (Count(q.entries, f) > 0 ==> Head(p, f, d) == Head(q, f, d) + (if served then d else 0))
  }

  /** One step moves the head of a queued lane only by serving it. */
  lemma {:induction false} StepHead<J(!new)>(qs: seq<Queue<J>>, es: seq<Event<J>>, s: Strides, k: nat, f: TenantId)
    requires IsRunBy(qs, es, s) && k < |es|
    ensures Advances(qs[k], qs[k + 1], f, s(f), Serves(qs[k], es[k], f))
  {
    RunLanes(qs, es, s, k);
    assert Lane(qs[k], f, s(f));
    assert k * COST + COST <= |es| * COST;
    if es[k].Push? {
      assert FinishOf(qs[k], es[k].tenant) <= k * COST;
      PushLane(qs[k], es[k].tenant, es[k].job, s, f);
    } else if qs[k].entries != [] {
      PopLane(qs[k], s, f);
    }
  }

  ghost predicate Advancing<J>(qs: seq<Queue<J>>, es: seq<Event<J>>, f: TenantId, d: nat) {
    |qs| == |es| + 1 && forall k: nat :: k < |es| ==> Advances(qs[k], qs[k + 1], f, d, Serves(qs[k], es[k], f))
  }

  lemma {:induction false} RunAdvances<J(!new)>(qs: seq<Queue<J>>, es: seq<Event<J>>, s: Strides, f: TenantId)
    requires IsRunBy(qs, es, s)
    ensures Advancing(qs, es, f, s(f))
  {
    forall k: nat | k < |es| ensures Advances(qs[k], qs[k + 1], f, s(f), Serves(qs[k], es[k], f)) {
      StepHead(qs, es, s, k, f);
    }
  }

  /** While a tenant stays backlogged its head advances by one stride per job served. */
  lemma {:induction false} HeadAdvance<J(!new)>(qs: seq<Queue<J>>, es: seq<Event<J>>, i: nat, j: nat, f: TenantId,
      d: nat)
    requires Advancing(qs, es, f, d) && i <= j < |qs| && Backlogged(qs, i, j, f)
    ensures Head(qs[j], f, d) == Tag(Head(qs[i], f, d), d, Served(qs, es, i, j, f))
    decreases j
  {
    if i < j {
      var k := j - 1;
      HeadAdvance(qs, es, i, k, f, d);
      assert Advances(qs[k], qs[k + 1], f, d, Serves(qs[k], es[k], f));
      AdvanceOne(qs, es, i, k, f, d, Head(qs[i], f, d));
    }
  }

  lemma AdvanceOne<J>(qs: seq<Queue<J>>, es: seq<Event<J>>, i: nat, k: nat, f: TenantId, d: nat, h0: int)
    requires i <= k < |es| < |qs| && Count(qs[k].entries, f) > 0
    requires Advances(qs[k], qs[k + 1], f, d, Serves(qs[k], es[k], f))
    requires Head(qs[k], f, d) == Tag(h0, d, Served(qs, es, i, k, f))
    ensures Head(qs[k + 1], f, d) == Tag(h0, d, Served(qs, es, i, k + 1, f))
  {
    TagNext(h0, d, Served(qs, es, i, k, f));
  }

  lemma {:induction false} ClockGrows<J(!new)>(qs: seq<Queue<J>>, es: seq<Event<J>>, s: Strides, i: nat, j: nat)
    requires IsRunBy(qs, es, s) && i <= j < |qs|
    ensures qs[i].clock <= qs[j].clock
    decreases j
  {
    if i < j {
      ClockGrows(qs, es, s, i, j - 1);
      var k := j - 1;
      assert qs[k + 1] == StepBy(qs[k], es[k], s);
    }
  }

  /** Service measured in virtual time, over an interval a tenant stays
      backlogged, differs from the clock's advance by at most one stride. */
  lemma {:induction false} ServiceTracksClock<J(!new)>(qs: seq<Queue<J>>, es: seq<Event<J>>, s: Strides, i: nat, j: nat,
      f: TenantId, d: nat)
    requires IsRunBy(qs, es, s) && i <= j < |qs| && Backlogged(qs, i, j, f) && d == s(f)
    ensures qs[j].clock - qs[i].clock - d <= Served(qs, es, i, j, f) * d <= qs[j].clock - qs[i].clock + d
  {
    RunAdvances(qs, es, s, f);
    HeadAdvance(qs, es, i, j, f, d);
    SpanIs(Served(qs, es, i, j, f), d);
    RunLanes(qs, es, s, i);
    RunLanes(qs, es, s, j);
    assert Lane(qs[i], f, d) && Lane(qs[j], f, d);
  }

  /** Fairness: over any interval in which two tenants both stay backlogged,
      their service in virtual time differs by at most the sum of their strides. */
  lemma {:induction false} FairShare<J(!new)>(qs: seq<Queue<J>>, es: seq<Event<J>>, i: nat, j: nat, f: TenantId,
      m: TenantId)
    requires IsRun(qs, es) && i <= j < |qs| && Backlogged(qs, i, j, f) && Backlogged(qs, i, j, m)
    ensures Served(qs, es, i, j, f) * Stride(qs[0], f) <= Served(qs, es, i, j, m) * Stride(qs[0], m) +
            Stride(qs[0], f) + Stride(qs[0], m)
    ensures Served(qs, es, i, j, m) * Stride(qs[0], m) <= Served(qs, es, i, j, f) * Stride(qs[0], f) +
            Stride(qs[0], f) + Stride(qs[0], m)
  {
    var s := Given(qs[0]);
    RunGiven(qs, es);
    ServiceTracksClock(qs, es, s, i, j, f, s(f));
    ServiceTracksClock(qs, es, s, i, j, m, s(m));
  }

  /** Jobs are served in the order of their start tags. */
  lemma {:induction false} TagsNeverDecrease<J(!new)>(qs: seq<Queue<J>>, es: seq<Event<J>>, i: nat, j: nat)
    requires IsRun(qs, es) && i < j < |es| && es[i] == es[j] == Pop && qs[i].entries != [] && qs[j].entries != []
    ensures qs[i].entries[FirstMin(qs[i].entries)].start <= qs[j].entries[FirstMin(qs[j].entries)].start
  {
    var s := Given(qs[0]);
    RunGiven(qs, es);
    assert qs[i + 1] == Step(qs[i], es[i]);
    ClockGrows(qs, es, s, i + 1, j);
    RunLanes(qs, es, s, j);
    PopsHead(qs[j], s, FirstMin(qs[j].entries));
    var f := qs[j].entries[FirstMin(qs[j].entries)].tenant;
    assert Lane(qs[j], f, s(f));
  }

  // ----- how long a job can wait -----

  /** A job of `m` served while `f` waits: its tag lies between the clock and `f`'s. */
  lemma {:induction false} PassTag<J(!new)>(qs: seq<Queue<J>>, es: seq<Event<J>>, s: Strides, i: nat, k: nat,
      f: TenantId, m: TenantId, df: nat, dm: nat)
    requires IsRunBy(qs, es, s) && i <= k < |es| && Backlogged(qs, i, k, f) && Served(qs, es, i, k, f) == 0
    requires df == s(f) && dm == s(m) && Serves(qs[k], es[k], m)
    ensures qs[i].clock <= Head(qs[k], m, dm) <= qs[i].clock + df
  {
    RunLanes(qs, es, s, k);
    RunLanes(qs, es, s, i);
    ClockGrows(qs, es, s, i, k);
    RunAdvances(qs, es, s, f);
    HeadAdvance(qs, es, i, k, f, df);
    PopsHead(qs[k], s, FirstMin(qs[k].entries));
    assert Lane(qs[k], m, dm) && Lane(qs[i], f, df);
  }

  lemma PassStep(clock: nat, df: nat, dm: nat, c: nat, head: int, next: int, served: bool, c': nat)
    requires next >= head + (if served then dm else 0) && c' == c + (if served then 1 else 0)
    requires c > 0 ==> head >= Tag(clock, dm, c) && Tag(clock, dm, c - 1) <= clock + df
    requires served ==> clock <= head <= clock + df
    ensures c' > 0 ==> next >= Tag(clock, dm, c') && Tag(clock, dm, c' - 1) <= clock + df
  {
    TagNext(clock, dm, c);
  }

  /** Every job of `m` served from step `i` up to step `j` has a tag in `low..high`. */
  ghost predicate TagsWithin<J>(qs: seq<Queue<J>>, es: seq<Event<J>>, i: nat, j: nat, m: TenantId, d: nat, low: int,
      high: int) {
    forall k: nat :: i <= k < j <= |es| < |qs| && Serves(qs[k], es[k], m) ==> low <= Head(qs[k], m, d) <= high
  }

  /** Served tags of one tenant lie a stride apart, so few fit in `low..high`. */
  lemma {:induction false} PassedBy<J(!new)>(qs: seq<Queue<J>>, es: seq<Event<J>>, i: nat, j: nat, m: TenantId, d: nat,
      low: nat, slack: nat)
    requires Advancing(qs, es, m, d) && i <= j < |qs| && TagsWithin(qs, es, i, j, m, d, low, low + slack)
    ensures Served(qs, es, i, j, m) > 0 ==>
              && Head(qs[j], m, d) >= Tag(low, d, Served(qs, es, i, j, m))
              && Tag(low, d, Served(qs, es, i, j, m) - 1) <= low + slack
    decreases j
  {
    if i < j {
      var k := j - 1;
      PassedBy(qs, es, i, k, m, d, low, slack);
      assert Advances(qs[k], qs[k + 1], m, d, Serves(qs[k], es[k], m));
      PassStep(low, slack, d, Served(qs, es, i, k, m), Head(qs[k], m, d), Head(qs[j], m, d), Serves(qs[k], es[k], m),
          Served(qs, es, i, j, m));
    }
  }

  lemma {:induction false} NotServed<J>(qs: seq<Queue<J>>, es: seq<Event<J>>, i: nat, k: nat, j: nat, f: TenantId)
    requires i <= k <= j <= |es| < |qs| && Served(qs, es, i, j, f) == 0
    ensures Served(qs, es, i, k, f) == 0
    decreases j
  {
    if k < j {
      NotServed(qs, es, i, k, j - 1, f);
    }
  }

  lemma {:induction false} TagsBetween<J(!new)>(qs: seq<Queue<J>>, es: seq<Event<J>>, s: Strides, i: nat, j: nat,
      f: TenantId, m: TenantId, df: nat, dm: nat)
    requires IsRunBy(qs, es, s) && i <= j < |qs| && Backlogged(qs, i, j, f) && Served(qs, es, i, j, f) == 0
    requires df == s(f) && dm == s(m)
    ensures TagsWithin(qs, es, i, j, m, dm, qs[i].clock, qs[i].clock + df)
  {
    forall k: nat | i <= k < j && Serves(qs[k], es[k], m)
      ensures qs[i].clock <= Head(qs[k], m, dm) <= qs[i].clock + df
    {
      NotServed(qs, es, i, k, j, f);
      PassTag(qs, es, s, i, k, f, m, df, dm);
    }
  }

  /** Jobs of `m` served while `f`'s oldest job waits. */
  lemma {:induction false} PassedAtMost<J(!new)>(qs: seq<Queue<J>>, es: seq<Event<J>>, s: Strides, i: nat, j: nat,
      f: TenantId, m: TenantId, df: nat, dm: nat)
    requires IsRunBy(qs, es, s) && i <= j < |qs| && Backlogged(qs, i, j, f) && Served(qs, es, i, j, f) == 0 && m != f
    requires df == s(f) && dm == s(m) && dm > 0
    ensures Served(qs, es, i, j, m) <= df / dm + 1
  {
    LastPassed(qs, es, s, i, j, f, m, df, dm);
    FewFit(qs[i].clock, dm, Served(qs, es, i, j, m), df);
  }

  lemma {:induction false} LastPassed<J(!new)>(qs: seq<Queue<J>>, es: seq<Event<J>>, s: Strides, i: nat, j: nat,
      f: TenantId, m: TenantId, df: nat, dm: nat)
    requires IsRunBy(qs, es, s) && i <= j < |qs| && Backlogged(qs, i, j, f) && Served(qs, es, i, j, f) == 0
    requires df == s(f) && dm == s(m)
    ensures Served(qs, es, i, j, m) > 0 ==> Tag(qs[i].clock, dm, Served(qs, es, i, j, m) - 1) <= qs[i].clock + df
  {
    TagsBetween(qs, es, s, i, j, f, m, df, dm);
    RunAdvances(qs, es, s, m);
    PassedBy(qs, es, i, j, m, dm, qs[i].clock, df);
  }

  lemma FewFit(low: nat, d: nat, c: nat, slack: nat)
    requires d > 0 && (c > 0 ==> Tag(low, d, c - 1) <= low + slack)
    ensures c <= slack / d + 1
  {
    if c > 0 {
      SpanIs(c - 1, d);
      DivideBound(c - 1, slack, d);
    }
  }

  lemma DivideBound(c: nat, a: nat, d: nat)
    requires d > 0 && c * d <= a
    ensures c <= a / d
  {
    assert a < (a / d + 1) * d;
    MulMonotone(a / d + 1, c, d);
  }

  lemma MulMonotone(b: nat, c: nat, d: nat)
    ensures b <= c ==> b * d <= c * d
  {
    if b <= c {
      assert c * d == b * d + (c - b) * d;
    }
  }

  /** Pops of any job from step `i` up to step `j`. */
  function Pops<J>(qs: seq<Queue<J>>, es: seq<Event<J>>, i: nat, j: nat): nat
    requires i <= j <= |es| < |qs|
    decreases j
  {
    if i == j then 0 else Pops(qs, es, i, j - 1) + (if es[j - 1] == Pop && qs[j - 1].entries != [] then 1 else 0)
  }

  function ServedAll<J>(qs: seq<Queue<J>>, es: seq<Event<J>>, i: nat, j: nat, ms: seq<TenantId>): nat
    requires i <= j <= |es| < |qs|
  {
    if ms == [] then 0 else ServedAll(qs, es, i, j, ms[..|ms| - 1]) + Served(qs, es, i, j, ms[|ms| - 1])
  }

  /** The most pops by the other tenants that the strides allow. */
  function WaitLimit(df: nat, s: Strides, ms: seq<TenantId>): nat
    requires forall k :: 0 <= k < |ms| ==> s(ms[k]) > 0
  {
    if ms == [] then 0 else WaitLimit(df, s, ms[..|ms| - 1]) + df / s(ms[|ms| - 1]) + 1
  }

  lemma {:induction false} ServedStep<J>(qs: seq<Queue<J>>, es: seq<Event<J>>, i: nat, j: nat, ms: seq<TenantId>)
    requires i < j <= |es| < |qs|
    requires forall a, b :: 0 <= a < b < |ms| ==> ms[a] != ms[b]
    ensures ServedAll(qs, es, i, j, ms) == ServedAll(qs, es, i, j - 1, ms) +
            (if exists a :: 0 <= a < |ms| && Serves(qs[j - 1], es[j - 1], ms[a]) then 1 else 0)
    decreases |ms|
  {
    if ms != [] {
      var rest, last := ms[..|ms| - 1], ms[|ms| - 1];
      ServedStep(qs, es, i, j, rest);
      assert Serves(qs[j - 1], es[j - 1], last) ==> forall a :: 0 <= a < |rest| ==>
             !Serves(qs[j - 1], es[j - 1], rest[a]);
      assert forall a :: 0 <= a < |rest| ==> rest[a] == ms[a];
    }
  }

  lemma {:induction false} ServedNone<J>(qs: seq<Queue<J>>, es: seq<Event<J>>, i: nat, ms: seq<TenantId>)
    requires i <= |es| < |qs|
    ensures ServedAll(qs, es, i, i, ms) == 0
  {
    if ms != [] {
      ServedNone(qs, es, i, ms[..|ms| - 1]);
    }
  }

  /** If only tenants in `ms` are served, their service accounts for every pop. */
  lemma {:induction false} PopsAreServed<J>(qs: seq<Queue<J>>, es: seq<Event<J>>, i: nat, j: nat, ms: seq<TenantId>)
    requires i <= j <= |es| < |qs|
    requires forall a, b :: 0 <= a < b < |ms| ==> ms[a] != ms[b]
    requires forall k :: i <= k < j && es[k] == Pop && qs[k].entries != [] ==>
             qs[k].entries[FirstMin(qs[k].entries)].tenant in ms
    ensures Pops(qs, es, i, j) == ServedAll(qs, es, i, j, ms)
    decreases j
  {
    if i == j {
      ServedNone(qs, es, i, ms);
    } else {
      PopsAreServed(qs, es, i, j - 1, ms);
      ServedStep(qs, es, i, j, ms);
      var k := j - 1;
      if es[k] == Pop && qs[k].entries != [] {
        var a :| 0 <= a < |ms| && ms[a] == qs[k].entries[FirstMin(qs[k].entries)].tenant;
        assert Serves(qs[k], es[k], ms[a]);
      }
    }
  }

  lemma {:induction false} AllPassed<J(!new)>(qs: seq<Queue<J>>, es: seq<Event<J>>, s: Strides, i: nat, j: nat,
      f: TenantId, ms: seq<TenantId>, df: nat)
    requires IsRunBy(qs, es, s) && i <= j < |qs| && Backlogged(qs, i, j, f) && Served(qs, es, i, j, f) == 0 && f !in ms
    requires df == s(f) && forall k :: 0 <= k < |ms| ==> s(ms[k]) > 0
    ensures ServedAll(qs, es, i, j, ms) <= WaitLimit(df, s, ms)
    decreases |ms|
  {
    if ms != [] {
      var rest, last := ms[..|ms| - 1], ms[|ms| - 1];
      AllPassed(qs, es, s, i, j, f, rest, df);
      PassedAtMost(qs, es, s, i, j, f, last, df, s(last));
    }
  }

  /** A tenant's oldest job waits at most one pop, plus one per stride that
      fits in its own, for each other tenant served meanwhile. */
  lemma {:induction false} WaitBound<J(!new)>(qs: seq<Queue<J>>, es: seq<Event<J>>, i: nat, j: nat, f: TenantId,
      ms: seq<TenantId>)
    requires IsRun(qs, es) && i <= j < |qs| && Backlogged(qs, i, j, f) && Served(qs, es, i, j, f) == 0 && f !in ms
    requires forall a, b :: 0 <= a < b < |ms| ==> ms[a] != ms[b]
    requires forall k :: i <= k < j && es[k] == Pop && qs[k].entries != [] ==>
             qs[k].entries[FirstMin(qs[k].entries)].tenant in ms
    requires forall k :: 0 <= k < |ms| ==> Given(qs[0])(ms[k]) > 0
    ensures Pops(qs, es, i, j) <= WaitLimit(Stride(qs[0], f), Given(qs[0]), ms)
  {
    RunGiven(qs, es);
    PopsAreServed(qs, es, i, j, ms);
    AllPassed(qs, es, Given(qs[0]), i, j, f, ms, Given(qs[0])(f));
  }

  // ----- order within a tenant -----

  /** Jobs are numbered by the step that pushes them. */
  ghost predicate Numbered(es: seq<Event<nat>>) {
    forall k :: 0 <= k < |es| && es[k].Push? ==> es[k].job == k
  }

  /** Later jobs of `f` have later tags. */
  ghost predicate InOrder(entries: seq<Entry<nat>>, f: TenantId, n: nat) {
    && (forall e :: e in entries ==> e.job < n)
    && (forall a, b :: a in entries && b in entries && a.tenant == b.tenant == f && a.job < b.job ==> a.start < b.start)
  }

  lemma {:induction false} OrderPush(q: Queue<nat>, f: TenantId, d: nat, t: TenantId, n: nat, dt: nat)
    requires InOrder(q.entries, f, n) && Lane(q, f, d) && d > 0
    ensures InOrder(PushedBy(q, t, n, dt).entries, f, n + 1)
  {
    var e := Entry(StartFor(q, t), t, n);
    if t == f {
      var h := OwnHead(q, f, d);
      forall a | a in q.entries && a.tenant == f ensures a.start < e.start {
        assert Rung(a.start, h, d, Count(q.entries, f));
        var k: nat :| k < Count(q.entries, f) && a.start == Tag(h, d, k);
        TagNext(h, d, k);
        SpanMonotone(k + 1, Count(q.entries, f), d);
      }
    }
  }

  lemma OrderPop(q: Queue<nat>, f: TenantId, n: nat)
    requires InOrder(q.entries, f, n) && q.entries != []
    ensures InOrder(Popped(q).entries, f, n + 1)
  {
    var i := FirstMin(q.entries);
    var rest := SwapRemoved(q.entries, i);
    forall e | e in rest ensures e in q.entries {
      var k :| 0 <= k < |rest| && rest[k] == e;
      RemovedAt(q.entries, i, k);
    }
  }

  lemma {:induction false} RunInOrder(qs: seq<Queue<nat>>, es: seq<Event<nat>>, s: Strides, f: TenantId, i: nat)
    requires IsRunBy(qs, es, s) && Numbered(es) && s(f) > 0 && i < |qs|
    ensures InOrder(qs[i].entries, f, i)
  {
    if i > 0 {
      var k := i - 1;
      RunInOrder(qs, es, s, f, k);
      RunLanes(qs, es, s, k);
      assert Lane(qs[k], f, s(f));
      assert qs[k + 1] == StepBy(qs[k], es[k], s);
      if es[k].Push? {
        OrderPush(qs[k], f, s(f), es[k].tenant, k, s(es[k].tenant));
      } else if qs[k].entries != [] {
        OrderPop(qs[k], f, k);
      }
    }
  }

  /** One tenant's jobs are served in the order they were pushed, as long as
      its weight does not exceed the cost of a job. */
  lemma {:induction false} TenantFifo(qs: seq<Queue<nat>>, es: seq<Event<nat>>, k: nat, e: Entry<nat>)
    requires IsRun(qs, es) && Numbered(es) && k < |es| && es[k] == Pop && e in qs[k].entries
    requires e.tenant == qs[k].entries[FirstMin(qs[k].entries)].tenant && WeightOf(qs[0], e.tenant) <= COST
    ensures qs[k].entries[FirstMin(qs[k].entries)].job <= e.job
  {
    RunGiven(qs, es);
    StridePositive(qs[0], e.tenant);
    RunInOrder(qs, es, Given(qs[0]), e.tenant, k);
    assert qs[k].entries[FirstMin(qs[k].entries)] in qs[k].entries;
  }

  lemma StridePositive<J>(q: Queue<J>, t: TenantId)
    ensures Stride(q, t) > 0 <==> WeightOf(q, t) <= COST
  {
    var w := WeightOf(q, t);
    if w <= COST {
      DivideBound(1, COST, w);
    }
  }

  lemma {:induction false} OnlyFirst<J>(entries: seq<Entry<J>>, i: nat)
    requires IsFirstMin(entries, i)
    ensures FirstMin(entries) == i
  {
  }

  /** With a weight above the cost of a job the tags of a tenant tie, and three
      of its jobs come out first, third, second. */
  lemma {:induction false} OverweightNotFifo(t: TenantId, w: nat)
    requires w > COST
    ensures var q := Pushed(Pushed(Pushed(Queue([], 0, map[], map[t := w]), t, 0), t, 1), t, 2);
            && q.entries[FirstMin(q.entries)].job == 0
            && Popped(q).entries[FirstMin(Popped(q).entries)].job == 2
            && (exists e :: e in Popped(q).entries && e.tenant == t && e.job == 1)
  {
    var q := Pushed(Pushed(Pushed(Queue([], 0, map[], map[t := w]), t, 0), t, 1), t, 2);
    assert COST / w == 0;
    assert q.entries == [Entry(0, t, 0), Entry(0, t, 1), Entry(0, t, 2)];
    OnlyFirst(q.entries, 0);
    var p := Popped(q);
    assert p.entries == [Entry(0, t, 2), Entry(0, t, 1)];
    OnlyFirst(p.entries, 0);
    assert p.entries[1] in p.entries;
  }

  /** `n` times: tenant `m`, whose stride is `d`, pushes a job and a job is popped. */
  function Rounds<J>(q: Queue<J>, m: TenantId, job: J, d: nat, n: nat): Queue<J> {
    if n == 0 then q else Popped(PushedBy(Rounds(q, m, job, d, n - 1), m, job, d))
  }

  /** A job pushed with a lower tag than all others and no stride leaves no trace once popped. */
  lemma {:induction false} RoundReturns<J(!new)>(q: Queue<J>, m: TenantId, job: J, d: nat)
    requires d == 0 && StartFor(q, m) <= U64_MAX && forall k :: 0 <= k < |q.entries| ==>
             StartFor(q, m) < q.entries[k].start
    ensures Popped(PushedBy(q, m, job, d)).entries == q.entries && Popped(PushedBy(q, m, job, d)).weights == q.weights
    ensures StartFor(Popped(PushedBy(q, m, job, d)), m) == StartFor(q, m)
  {
    var p := PushedBy(q, m, job, d);
    OnlyFirst(p.entries, |q.entries|);
    assert SwapRemoved(p.entries, |q.entries|) == q.entries;
  }

  /** `p` has what is queued in `q`, and a job of `m` would still get the same tag. */
  ghost predicate SameQueue<J>(q: Queue<J>, p: Queue<J>, m: TenantId) {
    p.entries == q.entries && p.weights == q.weights && StartFor(p, m) == StartFor(q, m)
  }

  lemma {:induction false} RoundsReturn<J(!new)>(q: Queue<J>, m: TenantId, job: J, n: nat)
    requires StartFor(q, m) <= U64_MAX && forall k :: 0 <= k < |q.entries| ==> StartFor(q, m) < q.entries[k].start
    ensures SameQueue(q, Rounds(q, m, job, 0, n), m)
  {
    if n > 0 {
      RoundsReturn(q, m, job, n - 1);
      RoundReturns(Rounds(q, m, job, 0, n - 1), m, job, 0);
    }
  }

  /** The wait bound needs every stride to be positive: a tenant whose weight
      exceeds the cost of a job can be served any number of times while every
      job already queued behind its tag waits. */
  lemma {:induction false} OverweightStarves<J(!new)>(q: Queue<J>, m: TenantId, job: J, d: nat, n: nat)
    requires WeightOf(q, m) > COST && d == Stride(q, m) && StartFor(q, m) <= U64_MAX
    requires forall k :: 0 <= k < |q.entries| ==> StartFor(q, m) < q.entries[k].start
    ensures Rounds(q, m, job, d, n).entries == q.entries && Rounds(q, m, job, d, n).weights == q.weights
    ensures StartFor(Rounds(q, m, job, d, n), m) == StartFor(q, m)
  {
    StridePositive(q, m);
    RoundsReturn(q, m, job, n);
  }

  /** One tenant's second job, reached from the empty queue in three steps, waits
      while another of too great a weight is served `n` times. */
  lemma {:induction false} OverweightStarvesOne<J(!new)>(f: TenantId, m: TenantId, w: nat, job: J, n: nat)
      returns (qs: seq<Queue<J>>, es: seq<Event<J>>)
    requires f != m && w > COST
    ensures IsRun(qs, es) && |qs| == 4 && qs[3].entries == [Entry(COST, f, job)]
    ensures Rounds(qs[3], m, job, Stride(qs[3], m), n).entries == [Entry(COST, f, job)]
  {
    var q0: Queue<J> := Queue([], 0, map[], map[m := w]);
    var q3 := SecondWaits(q0, f, m, job);
    qs, es := PushPushPop(q0, f, job);
    OverweightStarves(q3, m, job, Stride(q3, m), n);
  }

  lemma PushPushPop<J(!new)>(q0: Queue<J>, f: TenantId, job: J) returns (qs: seq<Queue<J>>, es: seq<Event<J>>)
    requires q0.entries == [] && q0.clock == 0 && q0.finish == map[]
    ensures IsRun(qs, es) && |qs| == 4 && qs[3] == Popped(Pushed(Pushed(q0, f, job), f, job))
  {
    var q1 := Pushed(q0, f, job);
    var q2 := Pushed(q1, f, job);
    qs, es := [q0, q1, q2, Popped(q2)], [Push(f, job), Push(f, job), Pop];
  }

  /** Two jobs of one tenant are pushed and one is popped: the other waits, and
      a tenant that has not pushed yet would still start at zero. */
  lemma SecondWaits<J(!new)>(q0: Queue<J>, f: TenantId, m: TenantId, job: J) returns (q3: Queue<J>)
    requires f != m && f !in q0.weights && q0 == Queue([], 0, map[], q0.weights)
    ensures q3 == Popped(Pushed(Pushed(q0, f, job), f, job)) && q3.entries == [Entry(COST, f, job)]
    ensures q3.weights == q0.weights && StartFor(q3, m) == 0
  {
    var q1 := Pushed(q0, f, job);
    var q2 := Pushed(q1, f, job);
    assert Stride(q0, f) == COST && Stride(q1, f) == COST;
    assert q2.entries == [Entry(0, f, job), Entry(COST, f, job)];
    OnlyFirst(q2.entries, 0);
    q3 := Popped(q2);
  }
}
