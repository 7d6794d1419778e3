/** How the server deals its connections out to worker threads. */
module Partition {
  import opened TwoPhase

  // The connections [lo, hi) that one thread polls.
  datatype Range = Range(lo: nat, hi: nat)

  function Min(a: int, b: int): int { if a <= b then a else b }

  function Max(a: int, b: int): int { if a >= b then a else b }

  function PerThread(clients: nat, threads: nat): (c: nat)
    requires threads > 0
    ensures c > 0
  {
    Max((clients + threads - 1) / threads, 1)
  }

  function RealThreads(clients: nat, threads: nat): nat { Min(threads, clients) }

  // Thread t's share, from first principles: the t-th block, cut off at the number of clients.
  function Share(clients: nat, perThread: nat, t: nat): Range {
    Range(Min(t * perThread, clients), Min((t + 1) * perThread, clients))
  }

  predicate InRange(r: Range, j: nat) { r.lo <= j < r.hi }

  lemma MulMono(a: nat, b: nat, c: nat)
    requires a <= b
    ensures a * c <= b * c
  {
  }

  lemma RoundedUp(n: nat, d: nat)
    requires d > 0
    ensures n <= ((n + d - 1) / d) * d < n + d
  {
    var q := (n + d - 1) / d;
    assert n + d - 1 == q * d + (n + d - 1) % d;
  }

  // The threads' blocks reach the last client.
  lemma Reaches(clients: nat, threads: nat)
    requires threads > 0
    ensures RealThreads(clients, threads) * PerThread(clients, threads) >= clients
    ensures clients > 0 ==> PerThread(clients, threads) <= clients
  {
    var c := (clients + threads - 1) / threads;
    RoundedUp(clients, threads);
    assert (clients + 1) * threads == clients * threads + threads;
    MulMono(1, threads, clients);
    if clients > 0 && c > clients {
      MulMono(clients + 1, c, threads);
      assert false;
    }
    if 0 < clients < threads {
      if c > 1 {
        MulMono(2, c, threads);
        assert false;
      }
    }
  }

  /** server_init's loop: every thread gets its share, including the first one, whose upper end is not clipped. */
  method Assign(clients: nat, threads: nat) returns (ranges: seq<Range>)
    requires threads > 0
    ensures |ranges| == RealThreads(clients, threads)
    ensures forall t :: 0 <= t < |ranges| ==> ranges[t] == Share(clients, PerThread(clients, threads), t)
  {
    var perThread := Max((clients + threads - 1) / threads, 1);
    var started := Min(threads, clients);
    var lo, hi := 0, perThread;
    ranges := [];
    Reaches(clients, threads);
    for i := 0 to started
      invariant |ranges| == i
      invariant lo == Min(i * perThread, clients) && (i < started ==> hi == Min((i + 1) * perThread, clients))
      invariant hi == Min(lo + perThread, clients) || i == 0 == lo
      invariant forall t :: 0 <= t < i ==> ranges[t] == Share(clients, perThread, t)
    {
      ranges := ranges + [Range(lo, hi)];
      lo := hi;
      hi := lo + perThread;
      hi := Min(clients, hi);
      assert (i + 1) * perThread == i * perThread + perThread;
      assert (i + 2) * perThread == (i + 1) * perThread + perThread;
    }
  }

  // Connection j lies in thread t's block exactly when t is j divided by the block size.
  lemma BlockOf(perThread: nat, j: nat, t: nat)
    requires perThread > 0
    ensures t * perThread <= j < (t + 1) * perThread <==> t == j / perThread
  {
    var q := j / perThread;
    assert j == q * perThread + j % perThread;
    if t < q {
      assert (t + 1) * perThread <= q * perThread;
    } else if t > q {
      assert t * perThread >= (q + 1) * perThread == q * perThread + perThread;
    }
  }

  predicate Consecutive(clients: nat, c: nat, t: nat) {
    && Share(clients, c, t).lo <= Share(clients, c, t).hi <= clients
    && Share(clients, c, t + 1).lo == Share(clients, c, t).hi
  }

  // Thread t's range holds connection j exactly when the block size puts j into block t.
  predicate Owned(clients: nat, c: nat, t: nat, j: nat)
    requires c > 0
  {
    InRange(Share(clients, c, t), j) <==> t == j / c
  }

  lemma ShareOwns(clients: nat, c: nat, t: nat, j: nat)
    requires c > 0 && j < clients
    ensures Owned(clients, c, t, j) && Consecutive(clients, c, t)
  {
    BlockOf(c, j, t);
    assert (t + 1) * c == t * c + c;
  }

  lemma QuotientBelow(j: nat, c: nat, k: nat)
    requires c > 0 && j < k * c
    ensures 0 <= j / c < k
  {
    var q := j / c;
    assert j == q * c + j % c;
    if q >= k {
      MulMono(k, q, c);
    }
  }

  lemma OwnerStarted(clients: nat, threads: nat, j: nat)
    requires threads > 0 && j < clients
    ensures 0 <= j / PerThread(clients, threads) < RealThreads(clients, threads)
  {
    Reaches(clients, threads);
    QuotientBelow(j, PerThread(clients, threads), RealThreads(clients, threads));
  }

  /** The shares are a partition: in order, without gap or overlap, inside the bounds, from the first connection
      to the last; thread t reads connection j exactly when j divided by the block size is t, and that thread is
      one of those started. */
  lemma SharesPartition(clients: nat, threads: nat)
    requires threads > 0
    ensures var k, c := RealThreads(clients, threads), PerThread(clients, threads);
      && Share(clients, c, 0).lo == 0 && Share(clients, c, k).lo == clients
      && (forall t :: 0 <= t < k ==> Consecutive(clients, c, t))
      && (forall j, t :: 0 <= j < clients && 0 <= t < k ==> Owned(clients, c, t, j))
      && (forall j :: 0 <= j < clients ==> 0 <= j / c < k)
  {
    var k, c := RealThreads(clients, threads), PerThread(clients, threads);
    Reaches(clients, threads);
    forall t: nat, j: nat | t < k && j < clients
      ensures Owned(clients, c, t, j) && Consecutive(clients, c, t)
    {
      ShareOwns(clients, c, t, j);
    }
    forall t: nat | t < k
      ensures Consecutive(clients, c, t)
    {
      ShareOwns(clients, c, t, 0);
    }
    forall j: nat | j < clients
      ensures 0 <= j / c < k
    {
      OwnerStarted(clients, threads, j);
    }
  }

  /** No thread reads more connections than the clients divided by the threads, rounded up. */
  lemma SharesAreSmall(clients: nat, threads: nat, t: nat)
    requires threads > 0
    ensures var c := PerThread(clients, threads);
      && Share(clients, c, t).hi - Share(clients, c, t).lo <= c
      && clients <= c * threads && (clients > 0 ==> (c - 1) * threads < clients)
  {
    var c := PerThread(clients, threads);
    assert (t + 1) * c == t * c + c;
    RoundedUp(clients, threads);
    if clients > 0 {
      assert (c - 1) * threads == c * threads - threads;
    }
  }

  /** A thread gets no connection at all exactly when the blocks before it already cover the clients. */
  lemma IdleThread(clients: nat, threads: nat, t: nat)
    requires threads > 0 && t < RealThreads(clients, threads)
    ensures (forall j :: 0 <= j < clients ==> !InRange(Share(clients, PerThread(clients, threads), t), j))
       <==> t * PerThread(clients, threads) >= clients
  {
    var c := PerThread(clients, threads);
    assert (t + 1) * c == t * c + c;
    if t * c < clients {
      assert InRange(Share(clients, c, t), t * c);
    }
  }

  function Block(clients: nat, threads: nat, j: nat): nat
    requires threads > 0
  {
    j / PerThread(clients, threads)
  }

  /** Each thread's share of the statistics entries is empty exactly when there are fewer entries than threads. */
  lemma StatisticsShare(entries: nat, threads: nat)
    requires threads > 0
    ensures entries / threads > 0 <==> entries >= threads
  {
    assert entries == (entries / threads) * threads + entries % threads;
  }

  // The configuration of the two-phase commit machine that this dealing out gives.
  function Dealt(clients: nat, threads: nat, options: Config): Config
    requires threads > 0
  {
    options.(owner := seq(clients, j requires 0 <= j => Block(clients, threads, j)),
             threads := RealThreads(clients, threads))
  }

  /** The machine's assumption that connection j is polled by its owner alone is what the ranges provide. */
  lemma OneReader(clients: nat, threads: nat, options: Config)
    requires threads > 0
    ensures ValidConfig(Dealt(clients, threads, options))
    ensures forall j, t :: 0 <= j < clients && 0 <= t < RealThreads(clients, threads) ==>
      (InRange(Share(clients, PerThread(clients, threads), t), j) <==> t == Dealt(clients, threads, options).owner[j])
  {
    var cfg, c := Dealt(clients, threads, options), PerThread(clients, threads);
    forall j: nat | j < clients
      ensures cfg.owner[j] < cfg.threads && cfg.owner[j] == j / c
    {
      OwnerStarted(clients, threads, j);
    }
    forall j: nat, t: nat | j < clients && t < RealThreads(clients, threads)
      ensures InRange(Share(clients, c, t), j) <==> t == cfg.owner[j]
    {
      ShareOwns(clients, c, t, j);
    }
  }
}
