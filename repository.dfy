/** The contract store: a JSON list of contract records kept in a file, with
    an upsert that replaces any record of the same contract id by the new one
    at the end. The file's content is modelled as the sequence of records. */
module Repository {
  import opened Wrappers

  /** A stored contract: its `contract_id` (absent when the record has no
      such field) and the rest of the record. */
  datatype ContractRecord = ContractRecord(contractId: Option<string>, body: string)

  /** `[c for c in data if c.get('contract_id') != id]` */
  function Without(data: seq<ContractRecord>, id: Option<string>): (r: seq<ContractRecord>)
    ensures forall c :: c in r <==> c in data && c.contractId != id
    ensures |r| <= |data|
  {
    if data == [] then []
    else
      var rest := Without(data[1..], id);
      assert forall c :: c in data <==> c == data[0] || c in data[1..];
      if data[0].contractId != id then [data[0]] + rest else rest
  }

  /** `[c for c in data if c.get('contract_id') in ids]`: a record without an
      id matches no id. */
  function Select(data: seq<ContractRecord>, ids: seq<string>): (r: seq<ContractRecord>)
    ensures forall c :: c in r <==> c in data && c.contractId.Some? && c.contractId.value in ids
    ensures |r| <= |data|
  {
    if data == [] then []
    else
      var rest := Select(data[1..], ids);
      assert forall c :: c in data <==> c == data[0] || c in data[1..];
      if data[0].contractId.Some? && data[0].contractId.value in ids then [data[0]] + rest else rest
  }

  /** The number of records carrying contract id `id`. */
  function CountId(data: seq<ContractRecord>, id: Option<string>): nat
  {
    if data == [] then 0
    else (if data[0].contractId == id then 1 else 0) + CountId(data[1..], id)
  }

  class ContractRepo {
    var store: seq<ContractRecord>

    /** Opening the store writes `[]` only when the file does not yet exist;
        `existing` is the file's content when it does. */
    constructor(existing: Option<seq<ContractRecord>>)
      ensures existing.None? ==> store == []
      ensures existing.Some? ==> store == existing.value
    {
      store := if existing.None? then [] else existing.value;
    }

    /** `list`: the stored records, in stored order. */
    method List() returns (data: seq<ContractRecord>)
      ensures data == store
    {
      data := store;
    }

    /** `save`: drop every record with the contract's id, append the
        contract, and report the new number of records. */
    method Save(contract: ContractRecord) returns (count: nat)
      modifies this
      ensures store == Without(old(store), contract.contractId) + [contract]
      ensures count == |store|
    {
      var data := List();
      data := Without(data, contract.contractId) + [contract];
      store := data;
      count := |data|;
    }

    /** `get_many`: every record when `ids` is empty, otherwise the records
        whose id is among `ids`, in stored order. */
    method GetMany(ids: seq<string>) returns (r: seq<ContractRecord>)
      ensures ids == [] ==> r == store
      ensures ids != [] ==> r == Select(store, ids)
    {
      var data := List();
      r := if ids != [] then Select(data, ids) else data;
    }
  }

  /** After an upsert exactly one record carries the saved id, and it is the
      saved record, last. */
  lemma {:induction false} UpsertLeavesOne(data: seq<ContractRecord>, contract: ContractRecord)
    ensures var r := Without(data, contract.contractId) + [contract];
      CountId(r, contract.contractId) == 1 && r[|r| - 1] == contract
  {
    var id := contract.contractId;
    var w := Without(data, id);
    NoneLeft(data, id);
    CountAppend(w, [contract], id);
    assert [contract][1..] == [];
  }

  lemma {:induction false} NoneLeft(data: seq<ContractRecord>, id: Option<string>)
    ensures CountId(Without(data, id), id) == 0
  {
    if data != [] {
      NoneLeft(data[1..], id);
      if data[0].contractId != id {
        assert ([data[0]] + Without(data[1..], id))[1..] == Without(data[1..], id);
      }
    }
  }

  lemma {:induction false} CountAppend(a: seq<ContractRecord>, b: seq<ContractRecord>, id: Option<string>)
    ensures CountId(a + b, id) == CountId(a, id) + CountId(b, id)
  {
    if a == [] {
      assert a + b == b;
    } else {
      CountAppend(a[1..], b, id);
      assert (a + b)[1..] == a[1..] + b;
    }
  }

  /** Filtering keeps the relative order of the records it keeps: filtering
      a concatenation filters each part. */
  lemma {:induction false} WithoutKeepsOrder(a: seq<ContractRecord>, b: seq<ContractRecord>, id: Option<string>)
    ensures Without(a + b, id) == Without(a, id) + Without(b, id)
  {
    if a == [] {
      assert a + b == b;
    } else {
      var ab := a + b;
      assert ab[0] == a[0] && ab[1..] == a[1..] + b;
      WithoutKeepsOrder(a[1..], b, id);
    }
  }

  /** Selecting by ids keeps the stored order in the same sense. */
  lemma {:induction false} SelectKeepsOrder(a: seq<ContractRecord>, b: seq<ContractRecord>, ids: seq<string>)
    ensures Select(a + b, ids) == Select(a, ids) + Select(b, ids)
  {
    if a == [] {
      assert a + b == b;
    } else {
      var ab := a + b;
      assert ab[0] == a[0] && ab[1..] == a[1..] + b;
      SelectKeepsOrder(a[1..], b, ids);
    }
  }

  /** Saving a record whose id is not yet stored appends it and keeps every
      stored record. */
  lemma {:induction false} SaveNewAppends(data: seq<ContractRecord>, contract: ContractRecord)
    requires forall c :: c in data ==> c.contractId != contract.contractId
    ensures Without(data, contract.contractId) == data
  {
    if data != [] {
      assert data[0] in data;
      assert forall c :: c in data[1..] ==> c in data;
      SaveNewAppends(data[1..], contract);
      assert [data[0]] + data[1..] == data;
    }
  }
}
