/** The persisted document of the EcoLoop web interface: two append-only
    sequences of records, the fallback used when the backing file cannot be
    loaded, and the two append operations as functions on documents. */
module Records {

  datatype Option<T> = None | Some(value: T)

  /** One recycling submission, `{id, company, quantity, recycled}`. */
  datatype Plastic = Plastic(id: int, company: string, quantity: int, recycled: bool)

  /** One payment, `{id, amount, status, date}`; `status` is whatever the
      payment provider answered and `date` an opaque timestamp string. */
  datatype Transaction = Transaction(id: int, amount: int, status: string, date: string)

  /** The whole JSON document; a request that changes the store rewrites all of it. */
  datatype Document = Document(plastics: seq<Plastic>, transactions: seq<Transaction>)

  /** `{plastics: [], transactions: []}` */
  const Empty: Document := Document([], [])

  /** What `readDb` returns: the parsed document, or the empty document when
      reading or parsing failed (`None`). */
  function Load(parsed: Option<Document>): (d: Document)
    ensures parsed.Some? ==> d == parsed.value
    ensures parsed.None? ==> d.plastics == [] && d.transactions == []
  {
    match parsed
    case Some(doc) => doc
    case None => Empty
  }

  /** The document after `db.plastics.push(newPlastic)` in POST /api/recycle. */
  function WithPlastic(d: Document, company: string, quantity: int): (d': Document)
    ensures |d'.plastics| == |d.plastics| + 1
    ensures d'.plastics[..|d.plastics|] == d.plastics
    ensures d'.plastics[|d.plastics|] == Plastic(|d.plastics| + 1, company, quantity, false)
    ensures d'.transactions == d.transactions
  {
    d.(plastics := d.plastics + [Plastic(|d.plastics| + 1, company, quantity, false)])
  }

  /** The document after `db.transactions.push(newTransaction)` in
      POST /api/transaction, for a charge status and a timestamp. */
  function WithTransaction(d: Document, amount: int, status: string, date: string): (d': Document)
    ensures |d'.transactions| == |d.transactions| + 1
    ensures d'.transactions[..|d.transactions|] == d.transactions
    ensures d'.transactions[|d.transactions|] == Transaction(|d.transactions| + 1, amount, status, date)
    ensures d'.plastics == d.plastics
  {
    d.(transactions := d.transactions + [Transaction(|d.transactions| + 1, amount, status, date)])
  }

  /** The record at position i carries id i + 1. */
  predicate PlasticsNumbered(ps: seq<Plastic>)
  {
    forall i :: 0 <= i < |ps| ==> ps[i].id == i + 1
  }

  predicate TransactionsNumbered(ts: seq<Transaction>)
  {
    forall i :: 0 <= i < |ts| ==> ts[i].id == i + 1
  }

  predicate WellNumbered(d: Document)
  {
    PlasticsNumbered(d.plastics) && TransactionsNumbered(d.transactions)
  }

  lemma LoadFallbackWellNumbered()
    ensures WellNumbered(Load(None))
  {
  }

  lemma WithPlasticPreservesNumbering(d: Document, company: string, quantity: int)
    ensures WellNumbered(WithPlastic(d, company, quantity)) <==> WellNumbered(d)
  {
  }

  lemma WithTransactionPreservesNumbering(d: Document, amount: int, status: string, date: string)
    ensures WellNumbered(WithTransaction(d, amount, status, date)) <==> WellNumbered(d)
  {
  }

  /** In a well-numbered document ids strictly increase along each sequence,
      so no two records of one sequence share an id. */
  lemma NumberedIdsIncrease(d: Document)
    requires WellNumbered(d)
    ensures forall i, j :: 0 <= i < j < |d.plastics| ==> d.plastics[i].id < d.plastics[j].id
    ensures forall i, j :: 0 <= i < j < |d.transactions| ==> d.transactions[i].id < d.transactions[j].id
  {
  }

  /** A request that changes the store: POST /api/recycle, or a successful
      POST /api/transaction with the charge status and timestamp it obtained. */
  datatype Op =
    | Recycle(company: string, quantity: int)
    | Pay(amount: int, status: string, date: string)

  function Step(d: Document, op: Op): (d': Document)
  {
    match op
    case Recycle(company, quantity) => WithPlastic(d, company, quantity)
    case Pay(amount, status, date) => WithTransaction(d, amount, status, date)
  }

  /** The document after the requests `ops`, in order, one at a time, each
      reading exactly what the one before it wrote (every write succeeds and
      every later read returns it). */
  function Replay(d: Document, ops: seq<Op>): (d': Document)
    decreases |ops|
  {
    if ops == [] then d else Step(Replay(d, ops[..|ops| - 1]), ops[|ops| - 1])
  }

  function RecycleCount(ops: seq<Op>): (n: nat)
    decreases |ops|
  {
    if ops == [] then 0
    else RecycleCount(ops[..|ops| - 1]) + (if ops[|ops| - 1].Recycle? then 1 else 0)
  }

  function PayCount(ops: seq<Op>): (n: nat)
    decreases |ops|
  {
    if ops == [] then 0
    else PayCount(ops[..|ops| - 1]) + (if ops[|ops| - 1].Pay? then 1 else 0)
  }

  /** Records are only ever appended: what was stored stays a prefix, and
      each sequence grows by exactly the number of requests aimed at it. */
  lemma {:induction false} ReplayAppendOnly(d: Document, ops: seq<Op>)
    ensures d.plastics <= Replay(d, ops).plastics
    ensures d.transactions <= Replay(d, ops).transactions
    ensures |Replay(d, ops).plastics| == |d.plastics| + RecycleCount(ops)
    ensures |Replay(d, ops).transactions| == |d.transactions| + PayCount(ops)
    decreases |ops|
  {
    if ops != [] {
      var prev := ops[..|ops| - 1];
      ReplayAppendOnly(d, prev);
      var mid := Replay(d, prev);
      var last := ops[|ops| - 1];
      assert Replay(d, ops) == Step(mid, last);
      match last
      case Recycle(c, q) =>
        assert mid.plastics <= WithPlastic(mid, c, q).plastics;
      case Pay(a, s, t) =>
        assert mid.transactions <= WithTransaction(mid, a, s, t).transactions;
    }
  }

  lemma {:induction false} ReplayPreservesNumbering(d: Document, ops: seq<Op>)
    requires WellNumbered(d)
    ensures WellNumbered(Replay(d, ops))
    decreases |ops|
  {
    if ops != [] {
      var prev := ops[..|ops| - 1];
      ReplayPreservesNumbering(d, prev);
      var mid := Replay(d, prev);
      match ops[|ops| - 1]
      case Recycle(c, q) => WithPlasticPreservesNumbering(mid, c, q);
      case Pay(a, s, t) => WithTransactionPreservesNumbering(mid, a, s, t);
    }
  }

  /** Starting from the fallback document, any history of requests yields
      plastics numbered 1..n and transactions numbered 1..m, in order, where
      n and m count the requests of each kind. */
  lemma FromEmptyIdsAreSequential(ops: seq<Op>)
    ensures |Replay(Load(None), ops).plastics| == RecycleCount(ops)
    ensures |Replay(Load(None), ops).transactions| == PayCount(ops)
    ensures forall i :: 0 <= i < |Replay(Load(None), ops).plastics| ==>
              Replay(Load(None), ops).plastics[i].id == i + 1
    ensures forall i :: 0 <= i < |Replay(Load(None), ops).transactions| ==>
              Replay(Load(None), ops).transactions[i].id == i + 1
  {
  }

  /** A read that fails between requests discards the stored records: the
      next submission writes a document holding only itself, so records
      stored before are no longer a prefix of what is on disk. */
  lemma FailedReadLosesRecords(stored: Document, company: string, quantity: int)
    requires |stored.plastics| >= 2 || stored.transactions != []
    ensures WithPlastic(Load(None), company, quantity) == Document([Plastic(1, company, quantity, false)], [])
    ensures !(stored.plastics <= WithPlastic(Load(None), company, quantity).plastics &&
              stored.transactions <= WithPlastic(Load(None), company, quantity).transactions)
  {
  }

  /** Three submissions to an empty document get ids 1, 2, 3. */
  lemma ThreeRecyclesFromEmpty(c1: string, c2: string, c3: string, q1: int, q2: int, q3: int)
    ensures var d := WithPlastic(WithPlastic(WithPlastic(Load(None), c1, q1), c2, q2), c3, q3);
            d.plastics == [Plastic(1, c1, q1, false), Plastic(2, c2, q2, false), Plastic(3, c3, q3, false)]
            && d.transactions == []
  {
  }
}
