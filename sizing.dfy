/** The worker-pool sizing rule of the media manager: half the CPUs,
    rounded down but never below one worker, and ten queue slots per worker. */
module PoolSizing {

  /** The number of workers NewManager gives a pool on a machine with numCPU CPUs. */
  function NumWorkersFor(numCPU: nat): (n: nat)
    ensures n >= 1
    ensures numCPU >= 2 ==> 2 * n <= numCPU <= 2 * n + 1
    ensures numCPU < 2 ==> n == 1
  {
    var half := numCPU / 2;
    if half == 0 then 1 else half
  }

  /** The capacity of the pool's job queue on a machine with numCPU CPUs. */
  function QueueSizeFor(numCPU: nat): (q: nat)
    ensures q >= 10 && q % 10 == 0
    ensures q / 10 == NumWorkersFor(numCPU)
  {
    NumWorkersFor(numCPU) * 10
  }

  function Max(a: int, b: int): int
  {
    if a < b then b else a
  }

  /** The rule agrees with the closed form max(1, numCPU / 2). */
  lemma NumWorkersIsMaxOfOneAndHalf(numCPU: nat)
    ensures NumWorkersFor(numCPU) == Max(1, numCPU / 2)
  {
  }

  /** A machine never gets more workers than it has CPUs (for at least one CPU). */
  lemma NumWorkersAtMostCPUs(numCPU: nat)
    requires numCPU >= 1
    ensures NumWorkersFor(numCPU) <= numCPU
  {
  }

  /** More CPUs never mean fewer workers or a shorter queue. */
  lemma SizingMonotonic(c1: nat, c2: nat)
    requires c1 <= c2
    ensures NumWorkersFor(c1) <= NumWorkersFor(c2)
    ensures QueueSizeFor(c1) <= QueueSizeFor(c2)
  {
  }

  /** The worked examples of the rule's documentation: 8 CPUs give 4 workers and
      a queue of 40, 4 give 2 and 20, and 1 or 2 give 1 and 10. */
  lemma SizingDocExamples()
    ensures NumWorkersFor(8) == 4 && QueueSizeFor(8) == 40
    ensures NumWorkersFor(4) == 2 && QueueSizeFor(4) == 20
    ensures NumWorkersFor(2) == 1 && QueueSizeFor(2) == 10
    ensures NumWorkersFor(1) == 1 && QueueSizeFor(1) == 10
  {
  }
}
