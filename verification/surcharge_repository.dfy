/**
 * The surcharge store (SurchargeRepository over the Surcharge table, whose key is
 * ProductTypeId): a batch upsert and a lookup that defaults to 0.
 */
module Persistence {
  import opened Wrappers
  import opened Domain

  /** One row of the Surcharge table. */
  datatype SurchargeEntity = SurchargeEntity(productTypeId: int, surcharge: real)

  /** The table after applying the batch row by row: each row overwrites or adds its key. */
  function Upsert(table: map<int, real>, batch: seq<SurchargeEntity>): map<int, real>
  {
    if batch == [] then table
    else
      var last := batch[|batch| - 1];
      Upsert(table, batch[..|batch| - 1])[last.productTypeId := last.surcharge]
  }

  function BatchKeys(batch: seq<SurchargeEntity>): set<int>
  {
    set e | e in batch :: e.productTypeId
  }

  /** Every key that the batch repeats was already in the table. A key that is new and
      repeated is inserted twice, and the second insert is refused. */
  predicate InsertsDistinct(table: map<int, real>, batch: seq<SurchargeEntity>)
  {
    forall i, j :: 0 <= i < j < |batch| && batch[i].productTypeId == batch[j].productTypeId
                   ==> batch[i].productTypeId in table
  }

  class SurchargeRepository {
    /** The saved rows, by ProductTypeId (the key makes them unique). */
    var table: map<int, real>
    /** Every batch AddSurchargeRates has been called with, in order. */
    ghost var received: seq<seq<SurchargeEntity>>

    constructor (rows: map<int, real>)
      ensures table == rows && received == []
    {
      table := rows;
      received := [];
    }

    /** AddSurchargeRatesAsync: the existing rows are read once into a dictionary; each
        rate updates its row when the dictionary has the key and is added as a new row
        otherwise; one save commits everything. Adding a second new row with the same key
        throws, and then nothing is saved. */
    method AddSurchargeRates(surchargeRates: seq<SurchargeEntity>) returns (r: Outcome<Exception>)
      modifies this
      ensures received == old(received) + [surchargeRates]
      ensures r.Pass? <==> InsertsDistinct(old(table), surchargeRates)
      ensures r.Pass? ==> table == Upsert(old(table), surchargeRates)
      ensures r.Fail? ==> r.error == InvalidOperationException && table == old(table)
    {
      received := received + [surchargeRates];
      var existing := table;
      var pending := table;
      var added: set<int> := {};
      for i := 0 to |surchargeRates|
        invariant pending == Upsert(existing, surchargeRates[..i])
        invariant added == BatchKeys(surchargeRates[..i]) - existing.Keys
        invariant InsertsDistinct(existing, surchargeRates[..i])
        invariant table == existing
      {
        var rate := surchargeRates[i];
        assert surchargeRates[..i + 1] == surchargeRates[..i] + [rate];
        if rate.productTypeId in existing {
          pending := pending[rate.productTypeId := rate.surcharge];
        } else if rate.productTypeId in added {
          var k :| 0 <= k < i && surchargeRates[k].productTypeId == rate.productTypeId;
          assert !InsertsDistinct(existing, surchargeRates);
          return Fail(InvalidOperationException);
        } else {
          added := added + {rate.productTypeId};
          pending := pending[rate.productTypeId := rate.surcharge];
        }
      }
      assert surchargeRates[..|surchargeRates|] == surchargeRates;
      table := pending;
      r := Pass;
    }

    /** GetSurchargeForProductTypeAsync: the stored surcharge, or 0 without a row. */
    function GetSurchargeForProductType(productTypeId: int): (r: real)
      reads this
      ensures productTypeId !in table ==> r == 0.0
      ensures productTypeId in table ==> r == table[productTypeId]
    {
      if productTypeId in table then table[productTypeId] else 0.0
    }
  }

  // ---------------------------------------------------------------------------
  // Properties of the upsert

  /** The keys after an upload are the old keys plus the batch's keys. */
  lemma {:induction false} UpsertKeys(table: map<int, real>, batch: seq<SurchargeEntity>)
    ensures Upsert(table, batch).Keys == table.Keys + BatchKeys(batch)
  {
    if batch != [] {
      var init := batch[..|batch| - 1];
      UpsertKeys(table, init);
      assert batch == init + [batch[|batch| - 1]];
      assert BatchKeys(batch) == BatchKeys(init) + {batch[|batch| - 1].productTypeId};
    }
  }

  /** A key the batch does not mention keeps its row, or its absence. */
  lemma {:induction false} UpsertKeepsOthers(table: map<int, real>, batch: seq<SurchargeEntity>, key: int)
    requires key !in BatchKeys(batch)
    ensures key in Upsert(table, batch) <==> key in table
    ensures key in table ==> Upsert(table, batch)[key] == table[key]
  {
    if batch != [] {
      var init := batch[..|batch| - 1];
      assert BatchKeys(init) <= BatchKeys(batch);
      UpsertKeepsOthers(table, init, key);
    }
  }

  /** A key the batch mentions ends up with the surcharge of its last occurrence. */
  lemma {:induction false} UpsertLastWins(table: map<int, real>, batch: seq<SurchargeEntity>, i: nat)
    requires i < |batch|
    requires forall j :: i < j < |batch| ==> batch[j].productTypeId != batch[i].productTypeId
    ensures batch[i].productTypeId in Upsert(table, batch)
    ensures Upsert(table, batch)[batch[i].productTypeId] == batch[i].surcharge
  {
    if i < |batch| - 1 {
      UpsertLastWins(table, batch[..|batch| - 1], i);
    }
  }

  /** Uploading the same batch again changes nothing. */
  lemma UpsertIdempotent(table: map<int, real>, batch: seq<SurchargeEntity>)
    ensures Upsert(Upsert(table, batch), batch) == Upsert(table, batch)
  {
    var once := Upsert(table, batch);
    var twice := Upsert(once, batch);
    UpsertKeys(table, batch);
    UpsertKeys(once, batch);
    forall key | key in twice
      ensures key in once && twice[key] == once[key]
    {
      if key in BatchKeys(batch) {
        var i := LastIndexOf(batch, key);
        UpsertLastWins(table, batch, i);
        UpsertLastWins(once, batch, i);
      } else {
        UpsertKeepsOthers(once, batch, key);
      }
    }
  }

  /** The position of a key's last occurrence in a batch. */
  function LastIndexOf(batch: seq<SurchargeEntity>, key: int): (i: nat)
    requires key in BatchKeys(batch)
    ensures i < |batch| && batch[i].productTypeId == key
    ensures forall j :: i < j < |batch| ==> batch[j].productTypeId != key
  {
    var last := batch[|batch| - 1];
    if last.productTypeId == key then |batch| - 1
    else
      assert batch == batch[..|batch| - 1] + [last];
      LastIndexOf(batch[..|batch| - 1], key)
  }

  /** Once a batch has been uploaded, uploading it again cannot be refused. */
  lemma ReuploadIsAccepted(table: map<int, real>, batch: seq<SurchargeEntity>)
    ensures InsertsDistinct(Upsert(table, batch), batch)
  {
    UpsertKeys(table, batch);
    forall i, j | 0 <= i < j < |batch| && batch[i].productTypeId == batch[j].productTypeId
      ensures batch[i].productTypeId in Upsert(table, batch)
    {
      assert batch[i] in batch;
    }
  }

  /** Two uploads of the same key leave one row holding the later surcharge. */
  lemma RepeatedUploadKeepsLatest(table: map<int, real>, key: int, first: real, second: real)
    ensures Upsert(Upsert(table, [SurchargeEntity(key, first)]), [SurchargeEntity(key, second)])
            == table[key := second]
  {
  }
}
