/** The one in-memory database every handler mutates in place, and the value it amounts to at any moment. */
module Database {
  import opened Prelude
  import opened SaleTypes

  class Database {
    var tickets: Tickets
    var order: seq<TicketId>
    var events: map<string, Event>
    var users: seq<User>
    var holds: seq<Hold>
    var drafts: seq<Draft>
    var pools: seq<Pool>
    var requests: seq<GroupRequest>
    var txs: seq<Transaction>
    var ledger: seq<LedgerEntry>

    constructor (db: Db)
      ensures Snapshot() == db
    {
      tickets, order, events, users := db.tickets, db.order, db.events, db.users;
      holds, drafts, pools, requests := db.holds, db.drafts, db.pools, db.requests;
      txs, ledger := db.txs, db.ledger;
    }

    function Snapshot(): Db
      reads this
    {
      Db(tickets, order, events, users, holds, drafts, pools, requests, txs, ledger)
    }

    /** `appendLedger` */
    method Append(actor: Actor, what: Happening)
      modifies this`ledger
      ensures Snapshot() == Log(old(Snapshot()), actor, what)
    {
      ledger := ledger + [LedgerEntry(actor, what)];
    }
  }
}
