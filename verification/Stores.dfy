/**
 * The kernel's stores as objects that update their rows in place. Every method
 * is proved against the function on tables that the transition system uses.
 */
module Stores {
  import opened Basics
  import opened Merkle
  import opened AuditStore
  import opened Consent
  import opened Database
  import opened Kernel

  /** The call returned as `spec` says, and the table is the new one exactly on success. */
  ghost predicate Did<T, U>(r: Result<U>, spec: Result<T>, before: T, after: T) {
    match spec
    case Ok(table) => r.Ok? && after == table
    case Err(e) => r == Err(e) && after == before
  }

  class EnergyLedger {
    var accounts: Ledger

    constructor ()
      ensures accounts == map[ROOT := Account(ROOT_BALANCE, 0)]
    {
      accounts := map[ROOT := Account(ROOT_BALANCE, 0)];
    }

    method ReserveInTx(actor: Id, cost: int) returns (r: Result<()>)
      modifies this
      ensures Did(r, Database.Reserve(old(accounts), actor, cost), old(accounts), accounts)
    {
      if cost <= 0 {
        return Err("reserve cost must be positive");
      }
      if actor !in accounts {
        return Err("actor not found");
      }
      var row := accounts[actor];
      var available := row.balance - row.reserved;
      if available < cost {
        return Err("insufficient energy");
      }
      accounts := accounts[actor := Account(row.balance, row.reserved + cost)];
      return Ok(());
    }

    method SettleInTx(actor: Id, reservedCost: int, actualCost: int) returns (r: Result<()>)
      modifies this
      ensures Did(r, Settle(old(accounts), actor, reservedCost, actualCost), old(accounts), accounts)
    {
      if reservedCost < 0 || actualCost < 0 {
        return Err("settle values cannot be negative");
      }
      if actor !in accounts {
        return Err("actor not found");
      }
      var balance, reserved := accounts[actor].balance, accounts[actor].reserved;
      var extra := if actualCost > reservedCost then actualCost - reservedCost else 0;
      if reserved < reservedCost {
        return Err("reserved mismatch");
      }
      if balance - reserved < extra {
        return Err("insufficient energy");
      }
      reserved := reserved - reservedCost;
      balance := balance - actualCost;
      if balance < 0 {
        return Err("insufficient energy");
      }
      accounts := accounts[actor := Account(balance, reserved)];
      return Ok(());
    }

    method CreditEnergyInTx(actor: Id, amount: int) returns (r: Result<()>)
      modifies this
      ensures Did(r, Credit(old(accounts), actor, amount), old(accounts), accounts)
    {
      if amount <= 0 {
        return Err("credit amount must be positive");
      }
      if actor !in accounts {
        return Err("actor not found");
      }
      accounts := accounts[actor := accounts[actor].(balance := accounts[actor].balance + amount)];
      return Ok(());
    }

    method CreateActorInTx(actor: Id, balance: int) returns (r: Result<()>)
      modifies this
      ensures Did(r, CreateAccount(old(accounts), actor, balance), old(accounts), accounts)
    {
      if Blank(actor) {
        return Err("actor_id cannot be empty");
      }
      if balance < 0 {
        return Err("energy_balance cannot be negative");
      }
      if actor in accounts {
        return Err("actor already exists");
      }
      accounts := accounts[actor := Account(balance, 0)];
      return Ok(());
    }
  }

  class EventLog {
    var events: seq<Event>

    constructor ()
      ensures events == []
    {
      events := [];
    }

    /** `append_in_tx`: assigns the next log index, hashes the event with it and inserts the row. */
    method AppendInTx(e: Event) returns (receipt: Receipt)
      modifies this
      ensures events == old(events) + [e]
      ensures receipt == Receipt(|old(events)|, EventHash(e, |old(events)|))
    {
      var logIndex := |events|;
      var hash := EventHash(e, logIndex);
      events := events + [e];
      return Receipt(logIndex, hash);
    }

    function Count(): (n: nat)
      reads this
      ensures n == |events|
    {
      |events|
    }
  }

  /** A latest checkpoint exists as soon as there is one. */
  lemma {:induction false} LargestKey(keys: set<nat>) returns (m: nat)
    requires keys != {}
    ensures m in keys && forall k | k in keys :: k <= m
    decreases |keys|
  {
    var x :| x in keys;
    if keys == {x} {
      m := x;
    } else {
      var rest := keys - {x};
      var y := LargestKey(rest);
      m := if y < x then x else y;
      forall k | k in keys
        ensures k <= m
      {
        assert k == x || k in rest;
      }
    }
  }

  class AuditLog {
    var rows: Rows
    var checkpoints: map<nat, Hash>

    constructor ()
      ensures rows == map[] && checkpoints == map[]
    {
      rows, checkpoints := map[], map[];
    }

    /** Appends the leaf: the carry loop collects the parents, then all rows are inserted. */
    method AppendLeafInTx(logIndex: nat, leaf: Hash) returns (r: Result<()>)
      modifies this`rows
      ensures Did(r, AppendLeaf(old(rows), logIndex, leaf), old(rows), rows)
    {
      hide Shr;
      var n := logIndex;
      var toStore := [((0, n), leaf)];
      ghost var all := Prepended(toStore, Carry(rows, n, 0, leaf));
      var current, level := leaf, 0;
      while Shr(n, level) % 2 == 1
        invariant rows == old(rows)
        invariant all == Prepended(toStore, Carry(rows, n, level, current))
        decreases Shr(n, level)
      {
        var nAtLevel := Shr(n, level);
        if (level, nAtLevel - 1) !in rows {
          return Err("hash not found");
        }
        var left := rows[(level, nAtLevel - 1)];
        var parent := NodeHash(left, current);
        var row := ((level + 1, nAtLevel / 2), parent);
        ShrLast(n, level + 1);
        PrependedAgain(toStore, row, Carry(rows, n, level + 1, parent));
        level := level + 1;
        toStore := toStore + [row];
        current := parent;
      }
      assert all == Ok(toStore) by {
        assert toStore + [] == toStore;
      }
      for i := 0 to |toStore|
        invariant InsertAll(rows, toStore[i..]) == InsertAll(old(rows), toStore)
      {
        assert toStore[i..][1..] == toStore[i + 1..];
        rows := rows[toStore[i].0 := toStore[i].1];
      }
      assert toStore[|toStore|..] == [];
      return Ok(());
    }

    /** Computes the root from the stored hashes and stores the checkpoint. */
    method MakeCheckpointInTx(treeSize: nat) returns (r: Result<Hash>)
      requires treeSize > 0
      modifies this`checkpoints
      ensures r == TreeHash(rows, 0, treeSize)
      ensures checkpoints == if r.Ok? then old(checkpoints)[treeSize := r.value] else old(checkpoints)
    {
      var root := TreeHash(rows, 0, treeSize);
      if root.Ok? {
        checkpoints := checkpoints[treeSize := root.value];
      }
      return root;
    }

    /** The size of the latest checkpoint, 0 without one. */
    method TreeSize() returns (size: nat)
      ensures checkpoints == map[] ==> size == 0
      ensures checkpoints != map[] ==> size in checkpoints && forall m | m in checkpoints :: m <= size
    {
      if checkpoints == map[] {
        return 0;
      }
      ghost var largest := LargestKey(checkpoints.Keys);
      size :| size in checkpoints && forall m | m in checkpoints :: m <= size;
    }

    /** Afterwards the latest checkpoint covers every event, and is the tree head of the whole log. */
    method EnsureCheckpoint(eventCount: nat, ghost d: seq<Hash>) returns (r: Result<()>)
      requires StoreOk(rows, d) && |d| == eventCount
      requires forall m | m in checkpoints :: 0 < m <= |d| && checkpoints[m] == Mth(d[..m])
      modifies this`checkpoints
      ensures r.Ok?
      ensures eventCount == 0 ==> checkpoints == old(checkpoints)
      ensures eventCount > 0 ==> checkpoints == old(checkpoints)[eventCount := Mth(d)]
    {
      hide StoreOk, Mth, TreeHash;
      if eventCount == 0 {
        return Ok(());
      }
      RootCorrect(rows, d, eventCount);
      assert d[..eventCount] == d;
      var current := TreeSize();
      if current >= eventCount {
        return Ok(());
      }
      var root := MakeCheckpointInTx(eventCount);
      return Ok(());
    }
  }

  /** The rows collected so far come before those still to come. */
  function Prepended(first: seq<(Key, Hash)>, rest: Result<seq<(Key, Hash)>>): (r: Result<seq<(Key, Hash)>>) {
    match rest
    case Ok(more) => Ok(first + more)
    case Err(e) => Err(e)
  }

  lemma PrependedAgain(first: seq<(Key, Hash)>, row: (Key, Hash), rest: Result<seq<(Key, Hash)>>)
    ensures Prepended(first, Prepended([row], rest)) == Prepended(first + [row], rest)
  {
    if rest.Ok? {
      assert first + ([row] + rest.value) == first + [row] + rest.value;
    }
  }

  /** A non-empty set of envelopes has one that was created last. */
  lemma {:induction false} LatestExists(envelopes: map<Id, Envelope>, ids: set<Id>) returns (e: Id)
    requires ids != {} && ids <= envelopes.Keys
    ensures e in ids && forall id | id in ids :: envelopes[id].createdAt <= envelopes[e].createdAt
    decreases |ids|
  {
    var x :| x in ids;
    if ids == {x} {
      e := x;
    } else {
      e := LatestExists(envelopes, ids - {x});
      if envelopes[e].createdAt < envelopes[x].createdAt {
        e := x;
      }
    }
  }

  /** The listed holds are in the order in which they were triggered. */
  predicate EarliestFirst(holds: map<Id, Hold>, list: seq<Id>) {
    && (forall i | 0 <= i < |list| :: list[i] in holds)
    && (forall i, j | 0 <= i < j < |list| :: holds[list[i]].triggeredAt <= holds[list[j]].triggeredAt)
  }

  lemma EarliestFirstGrows(holds: map<Id, Hold>, list: seq<Id>)
    ensures EarliestFirst(holds, [])
    ensures forall h | EarliestFirst(holds, list) && h in holds
              && (forall g | g in list && g in holds :: holds[g].triggeredAt <= holds[h].triggeredAt) ::
                EarliestFirst(holds, list + [h])
  {
  }

  /** A non-empty set of holds has one that was triggered first. */
  lemma {:induction false} EarliestExists(holds: map<Id, Hold>, ids: set<Id>) returns (h: Id)
    requires ids != {} && ids <= holds.Keys
    ensures h in ids && forall g | g in ids :: holds[h].triggeredAt <= holds[g].triggeredAt
    decreases |ids|
  {
    var x :| x in ids;
    if ids == {x} {
      h := x;
    } else {
      h := EarliestExists(holds, ids - {x});
      if holds[x].triggeredAt < holds[h].triggeredAt {
        h := x;
      }
    }
  }

  class EnvelopeStore {
    var envelopes: map<Id, Envelope>
    var holds: map<Id, Hold>

    constructor ()
      ensures envelopes == map[] && holds == map[]
    {
      envelopes, holds := map[], map[];
    }

    method CreateInTx(id: Id, row: Envelope) returns (r: Result<()>)
      modifies this`envelopes
      ensures id in old(envelopes) ==> r == Err("duplicate envelope_id") && envelopes == old(envelopes)
      ensures id !in old(envelopes) ==> r == Ok(()) && envelopes == old(envelopes)[id := row]
    {
      if id in envelopes {
        return Err("duplicate envelope_id");
      }
      envelopes := envelopes[id := row];
      return Ok(());
    }

    /** Of the actor's active envelopes, one that was created last. */
    method GetActiveForActor(actor: Id) returns (answer: Option<Id>)
      ensures answer.None? ==>
              forall id | id in envelopes :: !(envelopes[id].actor == actor && envelopes[id].status.EnvActive?)
      ensures answer.Some? ==>
                var e := answer.value;
                && e in envelopes && envelopes[e].actor == actor && envelopes[e].status.EnvActive?
                && forall id | id in envelopes && envelopes[id].actor == actor && envelopes[id].status.EnvActive? ::
                     envelopes[id].createdAt <= envelopes[e].createdAt
    {
      var ids := set id | id in envelopes && envelopes[id].actor == actor && envelopes[id].status.EnvActive?;
      if ids == {} {
        assert forall id | id in envelopes :: id !in ids;
        return None;
      }
      ghost var latest := LatestExists(envelopes, ids);
      var e :| e in ids && forall id | id in ids :: envelopes[id].createdAt <= envelopes[e].createdAt;
      return Some(e);
    }

    method CreateHoldRequestInTx(id: Id, row: Hold) returns (r: Result<()>)
      modifies this`holds
      ensures id in old(holds) ==> r == Err("duplicate hold_id") && holds == old(holds)
      ensures id !in old(holds) ==> r == Ok(()) && holds == old(holds)[id := row]
    {
      if id in holds {
        return Err("duplicate hold_id");
      }
      holds := holds[id := row];
      return Ok(());
    }

    method ResolveHoldRequestInTx(id: Id, status: HoldStatus) returns (r: Result<()>)
      modifies this`holds
      ensures Did(r, ResolveHold(old(holds), id, status), old(holds), holds)
    {
      if id !in holds || holds[id].status != Pending {
        return Err("hold_request not found or already resolved");
      }
      holds := holds[id := holds[id].(status := status)];
      return Ok(());
    }

    /** The rows of the pending holds of an envelope, each once, the earliest first. */
    method ListPendingHoldsForEnvelope(envelope: Id) returns (list: seq<Id>)
      ensures IsPendingList(holds, envelope, list)
      ensures EarliestFirst(holds, list)
    {
      hide EarliestFirst;
      var ids := set h | h in holds && holds[h].envelope == envelope && holds[h].status.Pending?;
      var left := ids;
      list := [];
      EarliestFirstGrows(holds, list);
      while left != {}
        invariant left <= ids
        invariant forall h :: h in list <==> h in ids && h !in left
        invariant forall i, j | 0 <= i < j < |list| :: list[i] != list[j]
        invariant EarliestFirst(holds, list)
        invariant forall h, g | h in list && g in left :: holds[h].triggeredAt <= holds[g].triggeredAt
        decreases |left|
      {
        ghost var earliest := EarliestExists(holds, left);
        var h :| h in left && forall g | g in left :: holds[h].triggeredAt <= holds[g].triggeredAt;
        EarliestFirstGrows(holds, list);
        list := list + [h];
        left := left - {h};
      }
    }

    /** Consumes budget up to the limit and returns the new total. */
    method ConsumeBudgetInTx(id: Id, amount: nat) returns (r: Result<nat>)
      modifies this`envelopes
      ensures r.Ok? <==> id in old(envelopes) && old(envelopes)[id].consumed + amount <= old(envelopes)[id].budget
      ensures r.Ok? ==> r.value == old(envelopes)[id].consumed + amount
      ensures r.Ok? ==> envelopes == old(envelopes)[id := old(envelopes)[id].(consumed := r.value)]
      ensures r.Err? ==> envelopes == old(envelopes)
    {
      if id !in envelopes {
        return Err("envelope not found");
      }
      var newConsumed := envelopes[id].consumed + amount;
      if newConsumed > envelopes[id].budget {
        return Err("budget exceeded");
      }
      envelopes := envelopes[id := envelopes[id].(consumed := newConsumed)];
      return Ok(newConsumed);
    }

    method SetStatusInTx(id: Id, status: EnvelopeStatus)
      requires id in envelopes
      modifies this`envelopes
      ensures envelopes == old(envelopes)[id := old(envelopes)[id].(status := status)]
    {
      envelopes := envelopes[id := envelopes[id].(status := status)];
    }
  }

  class ActorStore {
    var actors: map<Id, Actor>

    constructor ()
      ensures actors == Init().db.actors
    {
      actors := Init().db.actors;
    }

    method CreateInTx(id: Id, row: Actor) returns (r: Result<()>)
      modifies this
      ensures id in old(actors) ==> r == Err("actor already exists") && actors == old(actors)
      ensures id !in old(actors) ==> r == Ok(()) && actors == old(actors)[id := row]
    {
      if id in actors {
        return Err("actor already exists");
      }
      actors := actors[id := row];
      return Ok(());
    }

    method SetStatusInTx(id: Id, status: ActorStatus)
      requires id in actors
      modifies this
      ensures actors == old(actors)[id := old(actors)[id].(status := status)]
    {
      actors := actors[id := actors[id].(status := status)];
    }

    method UpdateEnergyShareInTx(id: Id, share: real)
      requires id in actors
      modifies this
      ensures actors == old(actors)[id := old(actors)[id].(share := share)]
    {
      actors := actors[id := actors[id].(share := share)];
    }

    /** The active actors whose lineage column is LIKE the ancestor's pattern, each once. */
    method ListDescendants(ancestor: Id) returns (list: seq<Id>)
      ensures forall id :: id in list <==> ActiveDescendant(actors, ancestor, id)
      ensures forall i, j | 0 <= i < j < |list| :: list[i] != list[j]
    {
      var ids := set id | id in actors && ActiveDescendant(actors, ancestor, id);
      list := Listed(ids);
    }

    /** The active agents with a positive share, each once. */
    method ListActiveWithShares() returns (list: seq<Id>)
      ensures IsShareList(actors, list)
    {
      var ids := set a | a in actors && actors[a].status.Active? && actors[a].share > 0.0 && actors[a].kind.Agent?;
      list := Listed(ids);
    }

    /** `execute_freeze`: the target and, through the cascade, its active descendants. */
    method ExecuteFreeze(target: Id)
      requires target in actors
      modifies this
      ensures actors == FreezeCascade(old(actors), target)
    {
      SetStatusInTx(target, Frozen);
      var descendants := ListDescendants(target);
      ghost var first := actors;
      for i := 0 to |descendants|
        invariant actors.Keys == first.Keys
        invariant forall id | id in first ::
          actors[id] == if id in descendants[..i] then first[id].(status := Frozen) else first[id]
      {
        assert descendants[i] in descendants;
        assert descendants[..i + 1] == descendants[..i] + [descendants[i]];
        SetStatusInTx(descendants[i], Frozen);
      }
      assert descendants[..|descendants|] == descendants;
    }
  }

  /** The rows of a result set, in some order. */
  method Listed(ids: set<Id>) returns (list: seq<Id>)
    ensures forall id :: id in list <==> id in ids
    ensures forall i, j | 0 <= i < j < |list| :: list[i] != list[j]
  {
    var left := ids;
    list := [];
    while left != {}
      invariant left <= ids
      invariant forall id :: id in list <==> id in ids && id !in left
      invariant forall i, j | 0 <= i < j < |list| :: list[i] != list[j]
      decreases |left|
    {
      var id :| id in left;
      list := list + [id];
      left := left - {id};
    }
  }
}
