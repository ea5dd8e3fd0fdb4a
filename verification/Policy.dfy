/**
 * The resource policy: how the host budget is derived from the configuration,
 * and when one more worker is admitted to the pool.
 *
 * JavaScript numbers are modelled as reals; rounding error is not modelled.
 */
module Policy {
  import opened Wrappers

  datatype HostResources = HostResources(cpuCount: int, totalMemBytes: int)

  datatype ResourceConfig = ResourceConfig(
    reserveCpuFraction: real,
    reserveMemFraction: real,
    reserveMemBytes: real,
    perWorkerCpu: real,
    maxPerWorkerCpu: real,
    perWorkerMemBytes: real,
    maxPerWorkerMemBytes: real,
    maxAggregateCpu: real,
    maxAggregateMemBytes: real,
    maxWorkers: int)

  datatype Budget = Budget(
    perWorkerCpu: real,
    perWorkerMemBytes: real,
    maxAggregateCpu: real,
    maxAggregateMemBytes: real,
    maxWorkers: int,
    hostReservedCpu: real,
    hostReservedMemBytes: real)

  datatype Allocation = Allocation(cpu: real, memBytes: real, sessionID: string)

  datatype Refusal = InvalidRequest | AbovePolicy | CpuExhausted | MemExhausted | WorkersExhausted

  datatype Admission =
    | Allowed(cpu: real, memBytes: real)
    | Refused(reason: Refusal, queueHint: int, queueable: bool)

  function Min(a: real, b: real): real { if a <= b then a else b }

  function Max(a: real, b: real): real { if a >= b then a else b }

  function MinInt(a: int, b: int): int { if a <= b then a else b }

  function MaxInt(a: int, b: int): int { if a >= b then a else b }

  function Ceil(x: real): int { -((-x).Floor) }

  function Clamp(v: real, lo: real, hi: real): real { Min(hi, Max(lo, v)) }

  /** The configurations an operator can sensibly write: every quantity is positive. */
  predicate Positive(r: HostResources, c: ResourceConfig) {
    && r.cpuCount > 0 && r.totalMemBytes > 0
    && c.reserveCpuFraction > 0.0 && c.reserveMemFraction > 0.0 && c.reserveMemBytes > 0.0
    && c.perWorkerCpu > 0.0 && c.maxPerWorkerCpu > 0.0
    && c.perWorkerMemBytes > 0.0 && c.maxPerWorkerMemBytes > 0.0
    && c.maxAggregateCpu > 0.0 && c.maxAggregateMemBytes > 0.0
    && c.maxWorkers > 0
  }

  function ComputeBudget(r: HostResources, c: ResourceConfig): Budget
    requires Positive(r, c)
  {
    var cpus, mem := r.cpuCount as real, r.totalMemBytes as real;
    var reservedCpu := MaxInt(1, Ceil(cpus * c.reserveCpuFraction)) as real;
    var reservedMem := Max((mem * c.reserveMemFraction).Floor as real, c.reserveMemBytes);
    var availCpu := Max(1.0, cpus - reservedCpu);
    var availMem := Max(0.0, mem - reservedMem);
    var perWorkerCpu := Clamp(c.perWorkerCpu, 0.25, c.maxPerWorkerCpu);
    var perWorkerMem := Clamp(c.perWorkerMemBytes, 134217728.0, c.maxPerWorkerMemBytes);
    var maxAggregateCpu := Min(c.maxAggregateCpu, availCpu);
    var maxAggregateMem := Min(c.maxAggregateMemBytes, availMem);
    var byCpu := MaxInt(0, (maxAggregateCpu / perWorkerCpu).Floor);
    var byMem := MaxInt(0, (maxAggregateMem / perWorkerMem).Floor);
    Budget(perWorkerCpu, perWorkerMem, maxAggregateCpu, maxAggregateMem,
           MinInt(c.maxWorkers, MinInt(byCpu, byMem)), reservedCpu, reservedMem)
  }

  /** `allocations.reduce((a, w) => a + w.cpu, 0)`: a left fold from zero. */
  function AggregateCpu(pool: seq<Allocation>): real {
    if pool == [] then 0.0 else AggregateCpu(pool[..|pool| - 1]) + pool[|pool| - 1].cpu
  }

  function AggregateMem(pool: seq<Allocation>): real {
    if pool == [] then 0.0 else AggregateMem(pool[..|pool| - 1]) + pool[|pool| - 1].memBytes
  }

  function CheckAdmission(pool: seq<Allocation>, budget: Budget, reqCpu: Option<real>, reqMem: Option<real>): Admission {
    var cpu := reqCpu.GetOr(budget.perWorkerCpu);
    var mem := reqMem.GetOr(budget.perWorkerMemBytes);
    if cpu <= 0.0 || mem <= 0.0 then
      Refused(InvalidRequest, 0, false)
    else if cpu > budget.perWorkerCpu || mem > budget.perWorkerMemBytes then
      Refused(AbovePolicy, 0, false)
    else if AggregateCpu(pool) + cpu > budget.maxAggregateCpu then
      Refused(CpuExhausted, 1, true)
    else if AggregateMem(pool) + mem > budget.maxAggregateMemBytes then
      Refused(MemExhausted, 1, true)
    else if |pool| >= budget.maxWorkers then
      Refused(WorkersExhausted, |pool| - budget.maxWorkers + 1, true)
    else
      Allowed(cpu, mem)
  }

  /** Every allocation has the size the policy gives a worker. */
  predicate Uniform(pool: seq<Allocation>, budget: Budget) {
    forall a <- pool :: a.cpu == budget.perWorkerCpu && a.memBytes == budget.perWorkerMemBytes
  }

  /** What `n` workers of one size add up to, summed the way the pool sums them. */
  function Load(n: nat, unit: real): real {
    if n == 0 then 0.0 else Load(n - 1, unit) + unit
  }

  /** What the rest of the broker relies on: `maxWorkers` full-sized workers fit both aggregates. */
  predicate Consistent(b: Budget) {
    && b.perWorkerCpu > 0.0 && b.perWorkerMemBytes > 0.0
    && b.maxWorkers >= 0
    && Load(b.maxWorkers, b.perWorkerCpu) <= b.maxAggregateCpu
    && Load(b.maxWorkers, b.perWorkerMemBytes) <= b.maxAggregateMemBytes
  }

  lemma {:induction false} LoadIsProduct(n: nat, unit: real)
    ensures Load(n, unit) == n as real * unit
  {
    if n > 0 {
      LoadIsProduct(n - 1, unit);
      var m := (n - 1) as real;
      assert n as real == m + 1.0;
      assert (m + 1.0) * unit == m * unit + unit;
    }
  }

  lemma {:induction false} LoadMonotone(m: nat, n: nat, unit: real)
    requires m <= n && unit > 0.0
    ensures Load(m, unit) <= Load(n, unit)
    ensures m < n ==> Load(m, unit) < Load(n, unit)
  {
    if m < n {
      LoadMonotone(m, n - 1, unit);
    }
  }

  /** `floor(total / unit)` units fit in `total`. */
  lemma FloorUnitsFit(total: real, unit: real, n: nat)
    requires total >= 0.0 && unit > 0.0 && n <= MaxInt(0, (total / unit).Floor)
    ensures Load(n, unit) <= total
  {
    var q := total / unit;
    assert q >= 0.0;
    assert n as real <= q;
    LoadIsProduct(n, unit);
    ProductMonotone(n as real, q, unit);
  }

  lemma ProductMonotone(a: real, b: real, x: real)
    requires a <= b && x >= 0.0
    ensures a * x <= b * x
  {
    assert (b - a) * x >= 0.0;
  }

  lemma BudgetIsConsistent(r: HostResources, c: ResourceConfig)
    requires Positive(r, c)
    ensures Consistent(ComputeBudget(r, c))
  {
    var b := ComputeBudget(r, c);
    var n: nat := b.maxWorkers;
    FloorUnitsFit(b.maxAggregateCpu, b.perWorkerCpu, n);
    FloorUnitsFit(b.maxAggregateMemBytes, b.perWorkerMemBytes, n);
  }

  lemma {:induction false} UniformAggregate(pool: seq<Allocation>, b: Budget)
    requires Uniform(pool, b)
    ensures AggregateCpu(pool) == Load(|pool|, b.perWorkerCpu)
    ensures AggregateMem(pool) == Load(|pool|, b.perWorkerMemBytes)
  {
    if pool == [] {
    } else {
      var n := |pool| - 1;
      UniformAggregate(pool[..n], b);
      assert pool[n] in pool;
    }
  }

  /**
   * For a pool of full-sized workers the three caps collapse into one: a worker
   * is admitted exactly while the count is below `maxWorkers`, and every
   * refusal is one that queueing can cure.
   */
  lemma AdmissionIsCounting(pool: seq<Allocation>, b: Budget)
    requires Consistent(b) && Uniform(pool, b)
    ensures var a := CheckAdmission(pool, b, None, None);
            && (a.Allowed? <==> |pool| < b.maxWorkers)
            && (a.Refused? ==> a.queueable)
            && (a.Allowed? ==> a.cpu == b.perWorkerCpu && a.memBytes == b.perWorkerMemBytes)
  {
    UniformAggregate(pool, b);
    var n := |pool|;
    if n < b.maxWorkers {
      LoadMonotone(n + 1, b.maxWorkers, b.perWorkerCpu);
      LoadMonotone(n + 1, b.maxWorkers, b.perWorkerMemBytes);
    }
  }

  /** Both aggregates and the worker count are within the budget. */
  predicate Fits(pool: seq<Allocation>, b: Budget) {
    && AggregateCpu(pool) <= b.maxAggregateCpu
    && AggregateMem(pool) <= b.maxAggregateMemBytes
    && |pool| <= b.maxWorkers
  }

  /**
   * Admission of any request, into any pool: it is allowed exactly when the
   * request is a positive one within the per-worker size and the pool still
   * fits the budget with the request added.
   */
  lemma AdmissionKeepsPoolFitting(pool: seq<Allocation>, b: Budget, reqCpu: Option<real>, reqMem: Option<real>, id: string)
    ensures var cpu, mem := reqCpu.GetOr(b.perWorkerCpu), reqMem.GetOr(b.perWorkerMemBytes);
            CheckAdmission(pool, b, reqCpu, reqMem).Allowed? <==>
            && 0.0 < cpu <= b.perWorkerCpu && 0.0 < mem <= b.perWorkerMemBytes
            && Fits(pool + [Allocation(cpu, mem, id)], b)
  {
    var cpu, mem := reqCpu.GetOr(b.perWorkerCpu), reqMem.GetOr(b.perWorkerMemBytes);
    var grown := pool + [Allocation(cpu, mem, id)];
    assert grown[..|grown| - 1] == pool;
  }

  /** A refusal is worth queueing for exactly when the empty pool would admit the request. */
  lemma QueueableMeansTransient(pool: seq<Allocation>, b: Budget, reqCpu: Option<real>, reqMem: Option<real>)
    requires Consistent(b) && b.maxWorkers >= 1
    requires CheckAdmission(pool, b, reqCpu, reqMem).Refused?
    ensures CheckAdmission(pool, b, reqCpu, reqMem).queueable <==> CheckAdmission([], b, reqCpu, reqMem).Allowed?
  {
    LoadMonotone(1, b.maxWorkers, b.perWorkerCpu);
    LoadMonotone(1, b.maxWorkers, b.perWorkerMemBytes);
    assert Load(1, b.perWorkerCpu) == b.perWorkerCpu && Load(1, b.perWorkerMemBytes) == b.perWorkerMemBytes;
    assert AggregateCpu([]) == 0.0 && AggregateMem([]) == 0.0;
  }

  /** A pool within the worker count is within both aggregate caps. */
  lemma CountedPoolFitsCaps(pool: seq<Allocation>, b: Budget)
    requires Consistent(b) && Uniform(pool, b) && |pool| <= b.maxWorkers
    ensures AggregateCpu(pool) <= b.maxAggregateCpu
    ensures AggregateMem(pool) <= b.maxAggregateMemBytes
  {
    UniformAggregate(pool, b);
    LoadMonotone(|pool|, b.maxWorkers, b.perWorkerCpu);
    LoadMonotone(|pool|, b.maxWorkers, b.perWorkerMemBytes);
  }

  /** An occupied pool uses some CPU and some memory. */
  lemma OccupiedPoolUsesHost(pool: seq<Allocation>, b: Budget)
    requires Consistent(b) && Uniform(pool, b) && |pool| > 0
    ensures AggregateCpu(pool) > 0.0 && AggregateMem(pool) > 0.0
  {
    UniformAggregate(pool, b);
    LoadMonotone(0, |pool|, b.perWorkerCpu);
    LoadMonotone(0, |pool|, b.perWorkerMemBytes);
  }

  /** The aggregate caps stay inside what the host has beyond the reserve. */
  lemma CapsRespectReserve(r: HostResources, c: ResourceConfig)
    requires Positive(r, c)
    ensures var b := ComputeBudget(r, c);
            && b.maxAggregateMemBytes <= Max(0.0, r.totalMemBytes as real - b.hostReservedMemBytes)
            && b.maxAggregateCpu <= Max(1.0, r.cpuCount as real - b.hostReservedCpu)
            && b.hostReservedCpu.Floor as real == b.hostReservedCpu
  {
  }

  lemma ReserveArithmetic(cpu: real, mem: real, b: Budget, r: HostResources)
    requires 0.0 < cpu <= b.maxAggregateCpu && 0.0 < mem <= b.maxAggregateMemBytes
    requires b.maxAggregateMemBytes <= Max(0.0, r.totalMemBytes as real - b.hostReservedMemBytes)
    requires b.maxAggregateCpu <= Max(1.0, r.cpuCount as real - b.hostReservedCpu)
    requires b.hostReservedCpu.Floor as real == b.hostReservedCpu
    ensures mem + b.hostReservedMemBytes <= r.totalMemBytes as real
    ensures cpu + b.hostReservedCpu <= r.cpuCount as real <==> r.cpuCount as real > b.hostReservedCpu
  {
    var reserved := b.hostReservedCpu.Floor;
    if r.cpuCount > reserved {
      assert (r.cpuCount - reserved) as real >= 1.0;
    }
  }

  /**
   * What a pool leaves the host, for every positive configuration. Memory: an
   * occupied pool always leaves the reserve. CPU: an occupied pool leaves the
   * reserve exactly when the host has more CPUs than the reserve.
   */
  lemma OccupiedPoolLeavesReserve(r: HostResources, c: ResourceConfig, pool: seq<Allocation>)
    requires Positive(r, c)
    requires var b := ComputeBudget(r, c); Uniform(pool, b) && 0 < |pool| <= b.maxWorkers
    ensures var b := ComputeBudget(r, c);
            && AggregateMem(pool) + b.hostReservedMemBytes <= r.totalMemBytes as real
            && (AggregateCpu(pool) + b.hostReservedCpu <= r.cpuCount as real
                <==> r.cpuCount as real > b.hostReservedCpu)
  {
    BudgetIsConsistent(r, c);
    CapsRespectReserve(r, c);
    var b := ComputeBudget(r, c);
    CountedPoolFitsCaps(pool, b);
    OccupiedPoolUsesHost(pool, b);
    ReserveArithmetic(AggregateCpu(pool), AggregateMem(pool), b, r);
  }

  /** Admission on the budget of any positive configuration, with no side condition left. */
  lemma ComputedBudgetAdmission(r: HostResources, c: ResourceConfig, pool: seq<Allocation>)
    requires Positive(r, c) && Uniform(pool, ComputeBudget(r, c))
    ensures var b := ComputeBudget(r, c);
            CheckAdmission(pool, b, None, None).Allowed? <==> |pool| < b.maxWorkers
  {
    BudgetIsConsistent(r, c);
    AdmissionIsCounting(pool, ComputeBudget(r, c));
  }
}
