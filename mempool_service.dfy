/**
 * The mempool: a priority queue of transactions awaiting confirmation. The
 * scheduler is replaced by a log of the confirmation tasks handed to it, and
 * confirmation is an explicit call.
 */
module MempoolService {
  import opened Common
  import opened Enums
  import opened FeeCalculationStrategy
  import opened Model
  import opened Stores

  /**
   * What the queue's comparator reads from a transaction: its tier and its fee,
   * both fixed at construction.
   */
  datatype SortKey = SortKey(feePriority: FeePriority, fees: real)

  function KeyOf(t: Transaction): (k: SortKey)
    ensures k.feePriority == t.feePriority && k.fees == t.fees
  {
    SortKey(t.feePriority, t.fees)
  }

  /**
   * A java.util.Comparator over transactions, negative, zero or positive,
   * applied to the transactions' sort keys.
   */
  type Comparator = (SortKey, SortKey) -> int

  /** Enum.compareTo: the sign follows the declaration order, and zero means the same constant. */
  function EnumCompare(x: FeePriority, y: FeePriority): (r: int)
    ensures r < 0 <==> Ordinal(x) < Ordinal(y)
    ensures r == 0 <==> x == y
    ensures r > 0 <==> Ordinal(y) < Ordinal(x)
  {
    OrdinalInjective(x, y);
    Ordinal(x) - Ordinal(y)
  }

  /** Double.compare, for values that are never NaN. */
  function DoubleCompare(x: real, y: real): (r: int)
    ensures -1 <= r <= 1
    ensures r < 0 <==> x < y
    ensures r == 0 <==> x == y
    ensures r > 0 <==> y < x
  {
    if x < y then -1 else if x > y then 1 else 0
  }

  /** Comparator.comparing(Transaction::getFeePriority): orders by tier ordinal. */
  function ByFeePriority(): (c: Comparator)
    ensures forall a, b :: c(a, b) < 0 <==> Ordinal(a.feePriority) < Ordinal(b.feePriority)
    ensures forall a, b :: c(a, b) == 0 <==> a.feePriority == b.feePriority
  {
    (a: SortKey, b: SortKey) => EnumCompare(a.feePriority, b.feePriority)
  }

  /** The key comparator of thenComparing(Transaction::getFees): orders by fee. */
  function ByFees(): (c: Comparator)
    ensures forall a, b :: c(a, b) < 0 <==> a.fees < b.fees
    ensures forall a, b :: c(a, b) == 0 <==> a.fees == b.fees
  {
    (a: SortKey, b: SortKey) => DoubleCompare(a.fees, b.fees)
  }

  /** Comparator.reversed(): the reverse ordering, the arguments swapped. */
  function Reversed(c: Comparator): (r: Comparator)
    ensures forall a, b :: r(a, b) == c(b, a)
  {
    (a: SortKey, b: SortKey) => c(b, a)
  }

  /** Comparator.thenComparing(d): d decides only where c sees a tie. */
  function ThenComparing(c: Comparator, d: Comparator): (r: Comparator)
    ensures forall a, b :: c(a, b) != 0 ==> r(a, b) == c(a, b)
    ensures forall a, b :: c(a, b) == 0 ==> r(a, b) == d(a, b)
  {
    (a: SortKey, b: SortKey) => if c(a, b) != 0 then c(a, b) else d(a, b)
  }

  /** The order the chain amounts to: lower tier ordinal first, then higher fee first. */
  predicate Precedes(a: SortKey, b: SortKey)
  {
    Ordinal(a.feePriority) < Ordinal(b.feePriority) || (a.feePriority == b.feePriority && a.fees > b.fees)
  }

  /** Neither precedes the other: same tier and same fee. */
  predicate Ties(a: SortKey, b: SortKey)
  {
    a.feePriority == b.feePriority && a.fees == b.fees
  }

  /**
   * The queue's comparator, built as the source chains it; the last reversed()
   * applies to the whole chain. It amounts to: lower tier ordinal first, then
   * higher fee first.
   */
  function MempoolOrder(): (r: Comparator)
    ensures forall a, b :: r(a, b) < 0 <==> Precedes(a, b)
    ensures forall a, b :: r(a, b) == 0 <==> Ties(a, b)
    ensures forall a, b :: r(a, b) > 0 <==> Precedes(b, a)
  {
    Reversed(ThenComparing(Reversed(ByFeePriority()), ByFees()))
  }

  /** The comparator keeps java.util.Comparator's sign contract: swapping the arguments flips the sign. */
  lemma MempoolOrderIsAntisymmetric(a: SortKey, b: SortKey)
    ensures MempoolOrder()(a, b) < 0 <==> MempoolOrder()(b, a) > 0
    ensures MempoolOrder()(a, b) == 0 <==> MempoolOrder()(b, a) == 0
  {
  }

  /** The comparator keeps java.util.Comparator's transitivity contract. */
  lemma MempoolOrderIsTransitive(a: SortKey, b: SortKey, c: SortKey)
    ensures MempoolOrder()(a, b) <= 0 && MempoolOrder()(b, c) <= 0 ==> MempoolOrder()(a, c) <= 0
  {
    SignMeansServedNoLater(a, b);
    SignMeansServedNoLater(b, c);
    SignMeansServedNoLater(a, c);
    if !Precedes(b, a) && !Precedes(c, b) {
      NotPrecededIsTransitive(a, b, c);
    }
  }

  /** A non-positive comparison means the second is not served before the first. */
  lemma SignMeansServedNoLater(a: SortKey, b: SortKey)
    ensures MempoolOrder()(a, b) <= 0 <==> !Precedes(b, a)
  {
  }

  /** Being served no later than is transitive: the order is a total preorder. */
  lemma NotPrecededIsTransitive(a: SortKey, b: SortKey, c: SortKey)
    requires !Precedes(b, a) && !Precedes(c, b)
    ensures !Precedes(c, a)
  {
    OrdinalInjective(a.feePriority, b.feePriority);
    OrdinalInjective(b.feePriority, c.feePriority);
    OrdinalInjective(a.feePriority, c.feePriority);
  }

  /**
   * Under the assumed declaration order the queue serves the economy tier
   * before the fast one, whatever their fees.
   */
  lemma EconomiqueServedBeforeRapide(a: Transaction, b: Transaction)
    requires a.feePriority == Economique && b.feePriority == Rapide
    ensures MempoolOrder()(KeyOf(a), KeyOf(b)) < 0
  {
  }

  /** Within one tier the higher fee is served first. */
  lemma HigherFeeServedFirstWithinTier(a: Transaction, b: Transaction)
    requires a.feePriority == b.feePriority && a.fees > b.fees
    ensures MempoolOrder()(KeyOf(a), KeyOf(b)) < 0
  {
  }

  /** The position of an element that no element of `s` precedes: what poll takes from the heap's root. */
  function IndexOfMin(s: seq<Transaction>): (i: nat)
    requires |s| > 0
    ensures i < |s|
    ensures forall j :: 0 <= j < |s| ==> !Precedes(KeyOf(s[j]), KeyOf(s[i]))
  {
    if |s| == 1 then 0
    else
      var k := 1 + IndexOfMin(s[1..]);
      if !Precedes(KeyOf(s[k]), KeyOf(s[0])) then 0 else k
  }

  /** The position of the first occurrence of `x`: what remove(o) takes out. */
  function IndexOf(s: seq<Transaction>, x: Transaction): (i: nat)
    requires x in s
    ensures i < |s| && s[i] == x
    ensures forall j :: 0 <= j < i ==> s[j] != x
  {
    if s[0] == x then 0 else 1 + IndexOf(s[1..], x)
  }

  /** `s` without its element at `i`. */
  function RemoveAt(s: seq<Transaction>, i: nat): (r: seq<Transaction>)
    requires i < |s|
    ensures multiset(r) == multiset(s) - multiset{s[i]}
    ensures |r| == |s| - 1
  {
    assert s == s[..i] + [s[i]] + s[i + 1..];
    s[..i] + s[i + 1..]
  }

  /** A confirmation handed to the scheduler: which transaction, after how many seconds. */
  datatype Task = Task(transaction: Transaction, delaySeconds: int)

  class MempoolService {
    const transactionStore: TransactionStore
    /** The queue's backing array; its order is the heap's and is not modelled. */
    var mempool: seq<Transaction>
    /** Every confirmation scheduled so far, in scheduling order. */
    var scheduled: seq<Task>

    constructor (transactionStore: TransactionStore)
      ensures this.transactionStore == transactionStore && mempool == [] && scheduled == []
    {
      this.transactionStore := transactionStore;
      mempool := [];
      scheduled := [];
    }

    /** The queue's contents, as a multiset. */
    function Contents(): multiset<Transaction>
      reads this
    {
      multiset(mempool)
    }

    /** Every queued transaction is PENDING. */
    ghost predicate AllPending()
      reads this, mempool
    {
      forall t :: t in mempool ==> t.status == Pending
    }

    /** getMempool: a copy holding the same elements as the queue, in no promised order. */
    method GetMempool() returns (snapshot: seq<Transaction>)
      ensures multiset(snapshot) == Contents()
    {
      snapshot := mempool;
    }

    /**
     * addTransaction: refuses null; otherwise marks the transaction PENDING,
     * queues it and schedules its confirmation after the delay its strategy
     * estimates for its tier.
     */
    method AddTransaction(ts: Transaction?) returns (ok: bool)
      modifies this, (if ts == null then {} else {ts})`status
      ensures ok <==> ts != null
      ensures ts == null ==> mempool == old(mempool) && scheduled == old(scheduled)
      ensures ts != null ==>
                && ts.status == Pending
                && Contents() == old(Contents()) + multiset{ts}
                && scheduled == old(scheduled) + [Task(ts, EstimateConfirmationTime(ts.feeStrategy, ts.feePriority))]
      ensures old(AllPending()) ==> AllPending()
    {
      if ts == null {
        return false;
      }
      ts.SetStatus(Pending);
      mempool := mempool + [ts];
      var delay := EstimateConfirmationTime(ts.feeStrategy, ts.feePriority);
      scheduled := scheduled + [Task(ts, delay)];
      ok := true;
    }

    /**
     * confirmTransaction: if the transaction is still queued, removes one
     * occurrence, marks it CONFIRMED and asks the store to confirm its row
     * (a store error is swallowed and still counts as success); otherwise does
     * nothing and reports false.
     */
    method ConfirmTransaction(tx: Transaction, updateFault: bool) returns (ok: bool)
      modifies this, tx`status, transactionStore
      ensures ok <==> tx in old(mempool)
      ensures scheduled == old(scheduled)
      ensures ok ==>
                && Contents() == old(Contents()) - multiset{tx}
                && tx.status == Confirmed
                && transactionStore.rows == if updateFault || tx.id.None? then old(transactionStore.rows)
                                            else ConfirmById(old(transactionStore.rows), tx.id.value)
      ensures !ok ==>
                && mempool == old(mempool) && tx.status == old(tx.status)
                && transactionStore.rows == old(transactionStore.rows)
      ensures old(AllPending()) && old(multiset(mempool))[tx] <= 1 ==> AllPending()
    {
      if tx !in mempool {
        return false;
      }
      var i := IndexOf(mempool, tx);
      mempool := RemoveAt(mempool, i);
      tx.SetStatus(Confirmed);
      transactionStore.Update(tx, updateFault);
      ok := true;
    }

    /**
     * pollNext: null on an empty queue; otherwise removes and returns an
     * element that no queued element precedes. Its status is left as it was.
     */
    method PollNext() returns (r: Transaction?)
      modifies this
      ensures r == null <==> old(mempool) == []
      ensures scheduled == old(scheduled)
      ensures r == null ==> mempool == old(mempool)
      ensures r != null ==>
                && r in old(mempool)
                && Contents() == old(Contents()) - multiset{r}
                && forall u :: u in old(mempool) ==> !Precedes(KeyOf(u), KeyOf(r))
    {
      if mempool == [] {
        return null;
      }
      var i := IndexOfMin(mempool);
      r := mempool[i];
      mempool := RemoveAt(mempool, i);
    }
  }

  /**
   * A transaction admitted once and confirmed twice (the scheduled task firing
   * twice) makes exactly one transition to CONFIRMED and one store update.
   */
  method ConfirmTwice(pool: MempoolService, tx: Transaction) returns (first: bool, second: bool)
    requires tx !in pool.mempool
    modifies pool, tx`status, pool.transactionStore
    ensures first && !second
    ensures tx.status == Confirmed && tx !in pool.mempool
    ensures pool.transactionStore.rows == if tx.id.None? then old(pool.transactionStore.rows)
                                          else ConfirmById(old(pool.transactionStore.rows), tx.id.value)
  {
    var added := pool.AddTransaction(tx);
    first := pool.ConfirmTransaction(tx, false);
    second := pool.ConfirmTransaction(tx, false);
  }

  /**
   * The source does not stop a transaction from being queued twice; confirming
   * it once then leaves a CONFIRMED transaction in the queue.
   */
  method DuplicateAdmissionLeavesConfirmedInQueue(pool: MempoolService, tx: Transaction)
    modifies pool, tx`status, pool.transactionStore
    ensures tx in pool.mempool && tx.status == Confirmed
  {
    var ok1 := pool.AddTransaction(tx);
    var ok2 := pool.AddTransaction(tx);
    assert pool.Contents()[tx] >= 2;
    var confirmed := pool.ConfirmTransaction(tx, false);
    assert pool.Contents()[tx] >= 1;
  }
}
