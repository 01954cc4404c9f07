/** The durable send journal of one account: table `send_results` with its two
    unique keys, the idempotency key and the transaction.  Each operation is one
    SQL statement, so it either applies as a whole or leaves the table alone. */
module SendJournal {

  // Identifiers and digests are compared for equality only.
  type Key = nat
  type TxnId = nat
  type Digest = nat

  /** The explanations a send result carries. */
  datatype Detail =
    | NoDetail
    | DurablyReserved      // reserved, but no verified completion was recorded
    | BackendInterrupted   // the UI operation started, its completion is unknown
    | IndexUnconfirmed     // the client accepted the action, the index did not confirm it
    | ClientUnverified     // the client could not verify whether the message was sent
    | DriverDetail(text: nat)

  datatype SendResult = SendResult(messageId: nat, verified: bool, uncertain: bool, detail: Detail)

  const NoResult := SendResult(0, false, false, NoDetail)

  datatype RowState = InFlight | Terminal

  datatype Row = Row(txn: TxnId, hash: Digest, state: RowState, result: SendResult)

  /** `rows` is the primary key index, `byTxn` the unique index on transaction_id. */
  datatype Journal = Journal(rows: map<Key, Row>, byTxn: map<TxnId, Key>)

  const Empty := Journal(map[], map[])

  /** The unique index and the table agree. */
  ghost predicate Coherent(j: Journal) {
    && (forall k :: k in j.rows ==> j.rows[k].txn in j.byTxn && j.byTxn[j.rows[k].txn] == k)
    && (forall t :: t in j.byTxn ==> j.byTxn[t] in j.rows && j.rows[j.byTxn[t]].txn == t)
  }

  predicate Holds(j: Journal, k: Key, t: TxnId, h: Digest) {
    k in j.rows && j.rows[k].txn == t && j.rows[k].hash == h && j.rows[k].state == InFlight
  }

  predicate CanReserve(j: Journal, k: Key, t: TxnId) {
    k !in j.rows && t !in j.byTxn
  }

  /** INSERT: refused when either unique key is taken. */
  function Reserve(j: Journal, k: Key, t: TxnId, h: Digest, r: SendResult): (j': Journal)
    ensures Coherent(j) ==> Coherent(j')
    ensures !CanReserve(j, k, t) ==> j' == j
    ensures CanReserve(j, k, t) ==> Holds(j', k, t, h) && Without(j', k) == j
  {
    if CanReserve(j, k, t)
    then
      var j' := Journal(j.rows[k := Row(t, h, InFlight, r)], j.byTxn[t := k]);
      assert j'.rows - {k} == j.rows;
      assert j'.byTxn - {t} == j.byTxn;
      j'
    else j
  }

  /** The journal without the row of key `k`. */
  function Without(j: Journal, k: Key): (j': Journal) {
    if k in j.rows then Journal(j.rows - {k}, j.byTxn - {j.rows[k].txn}) else j
  }

  /** What a lookup by transaction and key reads from the row. */
  function Stored(j: Journal, k: Key): SendResult {
    if k in j.rows then j.rows[k].result else NoResult
  }

  /** UPDATE ... WHERE all keys match AND state='in_flight'. */
  function Finalize(j: Journal, k: Key, t: TxnId, h: Digest, r: SendResult): (j': Journal)
    ensures Coherent(j) ==> Coherent(j')
    ensures !Holds(j, k, t, h) ==> j' == j
    ensures Holds(j, k, t, h) ==>
              k in j'.rows && j'.rows[k].state == Terminal && j'.rows[k].result == r && Without(j', k) == Without(j, k)
  {
    if Holds(j, k, t, h)
    then
      var j' := j.(rows := j.rows[k := Row(t, h, Terminal, r)]);
      assert j'.rows - {k} == j.rows - {k};
      j'
    else j
  }

  /** DELETE ... WHERE all keys match AND state='in_flight'. */
  function Delete(j: Journal, k: Key, t: TxnId, h: Digest): (j': Journal)
    ensures Coherent(j) ==> Coherent(j')
    ensures !Holds(j, k, t, h) ==> j' == j
    ensures Holds(j, k, t, h) ==> k !in j'.rows && t !in j'.byTxn
    ensures forall k' :: k' != k && k' in j.rows ==> k' in j'.rows && j'.rows[k'] == j.rows[k']
    ensures forall k' :: k' in j'.rows ==> k' in j.rows && j'.rows[k'] == j.rows[k']
  {
    if Holds(j, k, t, h) then Without(j, k) else j
  }

  /** A row deleted after its reservation leaves no trace. */
  lemma ReserveThenDelete(j: Journal, k: Key, t: TxnId, h: Digest, r: SendResult)
    requires Coherent(j) && CanReserve(j, k, t)
    ensures Delete(Reserve(j, k, t, h, r), k, t, h) == j
  {
  }

  /** A finalized row resists every later statement on the journal: it can be neither
      reserved over, nor finalized again, nor deleted. */
  lemma TerminalResists(j: Journal, k: Key, k': Key, t: TxnId, h: Digest, r: SendResult)
    requires Coherent(j) && k in j.rows && j.rows[k].state == Terminal
    ensures Reserve(j, k', t, h, r).rows[k] == j.rows[k]
    ensures k in Finalize(j, k', t, h, r).rows && Finalize(j, k', t, h, r).rows[k] == j.rows[k]
    ensures k in Delete(j, k', t, h).rows && Delete(j, k', t, h).rows[k] == j.rows[k]
  {
    assert k' == k ==> !CanReserve(j, k', t);
    if CanReserve(j, k', t) {
      var j' := Reserve(j, k', t, h, r);
      assert Without(j', k') == j;
      assert k in (j'.rows - {k'});
    }
    if Holds(j, k', t, h) {
      var j' := Finalize(j, k', t, h, r);
      assert k in Without(j, k').rows;
      assert k in Without(j', k').rows;
    }
  }
}
