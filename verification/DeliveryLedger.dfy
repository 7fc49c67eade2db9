/**
  The durable ledger of who already has which event (`src/db.js`), and the
  tracker that reads it (`src/deliveryTracker.js`). A statement that fails is
  swallowed: a failed read answers with nothing, a failed write is lost.
*/
module DeliveryLedger {
  datatype Standing = Permanent | Delivered

  /** `ON CONFLICT DO UPDATE ... WHERE status <> 'delivered'` */
  function Upserted(table: map<string, Standing>, chat: string, standing: Standing): map<string, Standing> {
    if chat in table && table[chat].Delivered? then table else table[chat := standing]
  }

  /** Delivered is always recorded and never lost, a refusal unless it was delivered; nobody else's row changes. */
  lemma UpsertNeverDowngrades(table: map<string, Standing>, chat: string, standing: Standing)
    ensures var after := Upserted(table, chat, standing);
      && after.Keys == table.Keys + {chat}
      && (after[chat] == Delivered <==> standing == Delivered || (chat in table && table[chat] == Delivered))
      && forall other :: other in table && other != chat ==> after[other] == table[other]
  {}

  class Ledger {
    var rows: map<string, map<string, Standing>>

    constructor ()
      ensures rows == map[]
    {
      rows := map[];
    }

    /** The rows of one event, by chat. */
    function TableOf(eventId: string): map<string, Standing>
      reads this
    {
      if eventId in rows then rows[eventId] else map[]
    }

    method GetEventDeliveries(eventId: string, readOk: bool) returns (found: seq<(string, Standing)>)
      ensures !readOk ==> found == []
      ensures readOk ==> forall chat, s :: (chat, s) in found <==>
              chat in TableOf(eventId) && TableOf(eventId)[chat] == s
    {
      found := [];
      if readOk {
        var table := TableOf(eventId);
        var left := table.Keys;
        while left != {}
          invariant left <= table.Keys
          invariant forall chat, s :: (chat, s) in found <==> chat in table && chat !in left && table[chat] == s
        {
          var chat :| chat in left;
          found := found + [(chat, table[chat])];
          left := left - {chat};
        }
      }
    }

    /** A `delivered` row is never downgraded; no other event's rows are touched. */
    method RecordEventDelivery(eventId: string, chat: string, standing: Standing, lands: bool)
      modifies this
      ensures TableOf(eventId) == if lands then Upserted(old(TableOf(eventId)), chat, standing)
                                 else old(TableOf(eventId))
      ensures forall other :: other != eventId ==> TableOf(other) == old(TableOf(other))
    {
      if lands {
        rows := rows[eventId := Upserted(TableOf(eventId), chat, standing)];
      }
    }
  }

  /** What a delivery starts from: the whole ledger of the event, or nothing when it cannot be read. */
  method GetTargetStatuses(ledger: Ledger, eventId: string, readOk: bool) returns (statuses: map<string, Standing>)
    ensures statuses == if readOk then ledger.TableOf(eventId) else map[]
  {
    var found := ledger.GetEventDeliveries(eventId, readOk);
    statuses := map[];
    for i := 0 to |found|
      invariant forall chat :: chat in statuses <==> exists k :: 0 <= k < i && found[k].0 == chat
      invariant forall chat :: chat in statuses ==> (chat, statuses[chat]) in found
    {
      statuses := statuses[found[i].0 := found[i].1];
      assert found[i] in found;
    }
    if readOk {
      forall chat | chat in ledger.TableOf(eventId)
        ensures chat in statuses
      {
        assert (chat, ledger.TableOf(eventId)[chat]) in found;
      }
      assert statuses == ledger.TableOf(eventId);
    }
  }
}
