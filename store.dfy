/** The loaded document as the route handlers use it: an object whose two
    arrays are pushed onto in place, and the three handlers that use the
    store. The report handler only reads it; the recycle handler, and the
    payment handler once its charge went through, read it, push one record
    and hand the whole document back to be written. */
module Store {
  import opened Records
  import opened Reports

  /** The object `readDb` returns; the handlers push onto its arrays. */
  class Db {
    var plastics: seq<Plastic>
    var transactions: seq<Transaction>

    function Doc(): (d: Document)
      reads this
    {
      Document(plastics, transactions)
    }

    constructor (d: Document)
      ensures Doc() == d
    {
      plastics := d.plastics;
      transactions := d.transactions;
    }

    /** `newPlastic = {id: db.plastics.length + 1, company, quantity,
        recycled: false}; db.plastics.push(newPlastic)` */
    method AppendPlastic(company: string, quantity: int) returns (p: Plastic)
      modifies this
      ensures p == Plastic(|old(plastics)| + 1, company, quantity, false)
      ensures plastics == old(plastics) + [p]
      ensures transactions == old(transactions)
      ensures Doc() == WithPlastic(old(Doc()), company, quantity)
      ensures WellNumbered(Doc()) <==> WellNumbered(old(Doc()))
    {
      p := Plastic(|plastics| + 1, company, quantity, false);
      plastics := plastics + [p];
      WithPlasticPreservesNumbering(old(Doc()), company, quantity);
    }

    /** `newTransaction = {id: db.transactions.length + 1, amount, status,
        date}; db.transactions.push(newTransaction)` */
    method AppendTransaction(amount: int, status: string, date: string) returns (t: Transaction)
      modifies this
      ensures t == Transaction(|old(transactions)| + 1, amount, status, date)
      ensures transactions == old(transactions) + [t]
      ensures plastics == old(plastics)
      ensures Doc() == WithTransaction(old(Doc()), amount, status, date)
      ensures WellNumbered(Doc()) <==> WellNumbered(old(Doc()))
    {
      t := Transaction(|transactions| + 1, amount, status, date);
      transactions := transactions + [t];
      WithTransactionPreservesNumbering(old(Doc()), amount, status, date);
    }
  }

  /** `readDb()`: `stored` is the outcome of reading and parsing the backing
      file, `None` when either failed. */
  method ReadDb(stored: Option<Document>) returns (db: Db)
    ensures fresh(db)
    ensures db.Doc() == Load(stored)
  {
    db := new Db(Load(stored));
  }

  /** GET /report/:company: the rows rendered for `company`. */
  method ReportRoute(stored: Option<Document>, company: string) returns (report: seq<Entry>)
    ensures report == Report(Load(stored).plastics, company)
  {
    var db := ReadDb(stored);
    report := Report(db.plastics, company);
  }

  /** POST /api/recycle: the document handed to `writeDb`, and the record
      that was added. */
  method RecycleRoute(stored: Option<Document>, company: string, quantity: int)
    returns (written: Document, added: Plastic)
    ensures written == WithPlastic(Load(stored), company, quantity)
    ensures added == Plastic(|Load(stored).plastics| + 1, company, quantity, false)
    ensures written.plastics == Load(stored).plastics + [added]
    ensures Report(written.plastics, company) == Report(Load(stored).plastics, company) + [Entry(quantity, false)]
  {
    var db := ReadDb(stored);
    added := db.AppendPlastic(company, quantity);
    written := db.Doc();
    ReportAppend(Load(stored).plastics, added, company);
  }

  /** POST /api/transaction. `charge` is the status the payment provider
      answered, or `None` when the charge call raised: then nothing is read
      or written and the handler answers 500. `date` is the current time. */
  method TransactionRoute(stored: Option<Document>, amount: int, charge: Option<string>, date: string)
    returns (written: Option<Document>)
    ensures charge.None? ==> written.None?
    ensures charge.Some? ==> written == Some(WithTransaction(Load(stored), amount, charge.value, date))
  {
    match charge {
      case None =>
        written := None;
      case Some(status) =>
        var db := ReadDb(stored);
        var t := db.AppendTransaction(amount, status, date);
        written := Some(db.Doc());
    }
  }
}
