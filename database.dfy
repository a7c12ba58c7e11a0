/**
 * The transactions table of database.py, seen only through `insert_transaction`:
 * the table is the sequence of the records inserted so far, and an insert appends
 * one record. The auto-assigned id column is not modelled.
 */
module Database {

  /** One stored transaction, with the columns of the table after its id. */
  datatype Transaction = Transaction(userId: string, date: string, description: string, amount: real,
                                     transactionType: string, category: string, accountName: string)

  class Store {
    ghost var records: seq<Transaction>

    /** `insert_transaction`: appends exactly the given record and changes nothing else. */
    method InsertTransaction(userId: string, date: string, description: string, amount: real,
                             transactionType: string, category: string, accountName: string)
      modifies this
      ensures records == old(records) + [Transaction(userId, date, description, amount, transactionType, category, accountName)]
    {
      records := records + [Transaction(userId, date, description, amount, transactionType, category, accountName)];
    }
  }
}
