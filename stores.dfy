/**
 * The storage collaborators the core reads and writes, reduced to what the core
 * observes of them: the wallet store as a set of known addresses and a map of
 * retrievable balances, and the transaction store as a table of rows.
 */
module Stores {
  import opened Common
  import opened Enums
  import opened Model

  /** The wallet table as seen through findByAddress, getBalance and updateBalance. */
  class WalletStore {
    /** The addresses for which findByAddress finds a wallet. */
    var addresses: set<Address>
    /** The addresses for which getBalance returns a balance, and that balance. */
    var balances: map<Address, real>

    constructor (addresses: set<Address>, balances: map<Address, real>)
      ensures this.addresses == addresses && this.balances == balances
    {
      this.addresses := addresses;
      this.balances := balances;
    }

    /** updateBalance: overwrites the balance stored for one address. */
    method UpdateBalance(address: Address, newBalance: real)
      modifies this`balances
      ensures balances == old(balances)[address := newBalance]
    {
      balances := balances[address := newBalance];
    }
  }

  /** One row of the transactions table. */
  datatype Row = Row(id: nat, fromAddress: Address, toAddress: Address, amount: real, fees: real,
                     feePriority: FeePriority, status: TransactionStatus, cryptoType: CryptoType)

  /**
   * Where an insert goes wrong. An SQLException is logged and swallowed by the
   * repository; where it is raised decides what has already happened:
   * opening the connection or preparing the statement fails before any
   * parameter is bound, the insert itself fails before a row is written, and
   * reading the generated key fails after the row is written but before the
   * transaction learns its id. `KeyRetrievalFails` also stands for the two
   * silent ways the key is lost once the row exists: no key comes back, or the
   * reflective call of setId fails and is ignored. An unchecked exception is
   * taken to come from the insert and reaches the caller with nothing written.
   */
  datatype SaveFault = NoSaveFault | ConnectionFails | InsertFails | KeyRetrievalFails | RuntimeFailure

  /**
   * Whether save throws: binding the crypto type column dereferences it, so a
   * transaction without one throws unless the connection already failed.
   */
  predicate SaveThrows(cryptoType: Option<CryptoType>, fault: SaveFault)
  {
    fault == RuntimeFailure || (cryptoType.None? && fault != ConnectionFails)
  }

  /** Whether save leaves a new row in the table. */
  predicate InsertsRow(cryptoType: Option<CryptoType>, fault: SaveFault)
  {
    cryptoType.Some? && (fault == NoSaveFault || fault == KeyRetrievalFails)
  }

  /** The columns an insert writes for a transaction, with the key the database generates. */
  function RowOf(t: Transaction, id: nat): (r: Row)
    requires t.cryptoType.Some?
    reads t
    ensures r.id == id && r.status == t.status && r.cryptoType == t.cryptoType.value
    ensures r.fromAddress == t.fromAddress && r.toAddress == t.toAddress
    ensures r.amount == t.amount && r.fees == t.fees && r.feePriority == t.feePriority
  {
    Row(id, t.fromAddress, t.toAddress, t.amount, t.fees, t.feePriority, t.status, t.cryptoType.value)
  }

  /** The rows after `UPDATE transactions SET status = 'CONFIRMED' WHERE id = ?`. */
  function ConfirmById(rows: seq<Row>, id: nat): (r: seq<Row>)
    ensures |r| == |rows|
    ensures forall i :: 0 <= i < |rows| && rows[i].id == id ==> r[i] == rows[i].(status := Confirmed)
    ensures forall i :: 0 <= i < |rows| && rows[i].id != id ==> r[i] == rows[i]
  {
    if rows == [] then []
    else [if rows[0].id == id then rows[0].(status := Confirmed) else rows[0]] + ConfirmById(rows[1..], id)
  }

  /** The transactions table; keys are handed out in insertion order starting at 1. */
  class TransactionStore {
    var rows: seq<Row>

    ghost predicate Valid()
      reads this
    {
      forall i :: 0 <= i < |rows| ==> rows[i].id == i + 1
    }

    constructor ()
      ensures Valid() && rows == []
    {
      rows := [];
    }

    /**
     * save: appends a row keyed by the next key when the insert goes through,
     * and gives the transaction that key only when reading it back succeeds too.
     */
    method Save(t: Transaction, fault: SaveFault) returns (threw: bool)
      requires Valid()
      modifies this, t`id
      ensures Valid()
      ensures threw <==> SaveThrows(t.cryptoType, fault)
      ensures rows == if InsertsRow(t.cryptoType, fault) then old(rows) + [RowOf(t, |old(rows)| + 1)] else old(rows)
      ensures t.id == if !threw && fault == NoSaveFault then Some(|old(rows)| + 1) else old(t.id)
    {
      if fault == ConnectionFails {
        return false;
      }
      if t.cryptoType.None? || fault == RuntimeFailure {
        return true;
      }
      if fault == InsertFails {
        return false;
      }
      var key := |rows| + 1;
      rows := rows + [RowOf(t, key)];
      if fault == NoSaveFault {
        t.SetId(key);
      }
      threw := false;
    }

    /**
     * update: whatever the transaction's status, marks the row with the
     * transaction's id CONFIRMED; an SQL error is swallowed and writes nothing.
     */
    method Update(t: Transaction, fault: bool)
      modifies this
      ensures rows == if fault || t.id.None? then old(rows) else ConfirmById(old(rows), t.id.value)
    {
      if !fault && t.id.Some? {
        rows := ConfirmById(rows, t.id.value);
      }
    }
  }

  /** In a valid table an update by key confirms exactly the row with that key and no other. */
  lemma ConfirmByIdTouchesOneRow(rows: seq<Row>, id: nat, i: nat)
    requires forall k :: 0 <= k < |rows| ==> rows[k].id == k + 1
    requires i < |rows|
    ensures ConfirmById(rows, id)[i] != rows[i] <==> i + 1 == id && rows[i].status != Confirmed
  {
  }
}
