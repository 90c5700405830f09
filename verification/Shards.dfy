/** The shard allocator (performance/optimizer.go): a map of shards whose statuses are updated in
    place, walked in whatever order the map gives. */
module Shards {

  datatype Status = Pending | Running | Completed | Failed

  /** A shard's number, the key of the manager's map. */
  datatype ShardId = ShardId(n: int)

  // ----- As values -----

  type Table = map<ShardId, Status>

  /** `picked` is the shard the walk over the map happens to find first. */
  datatype Op = GetNext(picked: ShardId) | MarkComplete(id: ShardId) | MarkFailed(id: ShardId)

  predicate HasPending(t: Table) { exists i :: i in t && t[i] == Pending }

  predicate Allowed(t: Table, op: Op) {
    op.GetNext? && HasPending(t) ==> op.picked in t && t[op.picked] == Pending
  }

  function Step(t: Table, op: Op): Table {
    match op
    case GetNext(i) => if i in t && t[i] == Pending then t[i := Running] else t
    case MarkComplete(i) => if i in t then t[i := Completed] else t
    case MarkFailed(i) => if i in t then t[i := Failed] else t
  }

  /** The shard handed out by an operation. */
  function Handed(t: Table, op: Op): seq<ShardId> {
    if op.GetNext? && op.picked in t && t[op.picked] == Pending then [op.picked] else []
  }

  function Created(n: nat): Table { if n == 0 then map[] else Created(n - 1)[ShardId(n - 1) := Pending] }

  function Run(t: Table, ops: seq<Op>): Table {
    if ops == [] then t else Step(Run(t, ops[..|ops| - 1]), ops[|ops| - 1])
  }

  function HandedOut(t: Table, ops: seq<Op>): seq<ShardId> {
    if ops == [] then []
    else HandedOut(t, ops[..|ops| - 1]) + Handed(Run(t, ops[..|ops| - 1]), ops[|ops| - 1])
  }

  ghost predicate NoRepeats(s: seq<ShardId>) { forall i, j :: 0 <= i < j < |s| ==> s[i] != s[j] }

  /** Whatever order the shards are found in, none is handed out twice, a shard handed out is never
      pending again, and the set of shards does not change. */
  lemma {:induction false} HandedOutOnce(t: Table, ops: seq<Op>)
    ensures NoRepeats(HandedOut(t, ops))
    ensures Run(t, ops).Keys == t.Keys
    ensures forall i :: i in HandedOut(t, ops) ==> i in t && Run(t, ops)[i] != Pending
    ensures forall i :: i in t && t[i] != Pending ==> Run(t, ops)[i] != Pending
  {
    if ops != [] {
      HandedOutOnce(t, ops[..|ops| - 1]);
    }
  }

  /** No shard returns to pending, from any point of a run to any later one. */
  lemma {:induction false} NeverPendingAgain(t: Table, ops: seq<Op>, more: seq<Op>, i: ShardId)
    requires i in t && Run(t, ops).Keys == t.Keys && Run(t, ops)[i] != Pending
    ensures Run(t, ops + more).Keys == t.Keys && Run(t, ops + more)[i] != Pending
  {
    if more == [] {
      assert ops + more == ops;
    } else {
      assert (ops + more)[..|ops + more| - 1] == ops + more[..|more| - 1];
      NeverPendingAgain(t, ops, more[..|more| - 1], i);
    }
  }

  ghost function WithStatus(t: Table, s: Status): set<ShardId> { set i | i in t && t[i] == s }

  /** Every shard has one status, so the four counts add up. */
  lemma CountsAddUp(t: Table)
    ensures |WithStatus(t, Pending)| + |WithStatus(t, Running)| + |WithStatus(t, Completed)| + |WithStatus(t, Failed)|
         == |t.Keys|
  {
    var p, r := WithStatus(t, Pending), WithStatus(t, Running);
    var c, f := WithStatus(t, Completed), WithStatus(t, Failed);
    forall i ensures i in t.Keys <==> i in p + r + c + f {
    }
    assert t.Keys == p + r + c + f;
    assert p !! r && (p + r) !! c && (p + r + c) !! f;
  }

  lemma PendingCount(t: Table)
    ensures HasPending(t) <==> |WithStatus(t, Pending)| > 0
  {
    if HasPending(t) {
      var i :| i in t && t[i] == Pending;
      assert i in WithStatus(t, Pending);
    } else {
      forall i ensures i !in WithStatus(t, Pending) {
      }
      assert WithStatus(t, Pending) == {};
    }
  }

  lemma {:induction false} CreatedSize(n: nat)
    ensures |Created(n).Keys| == n
    ensures forall i :: i in Created(n) ==> Created(n)[i] == Pending && 0 <= i.n < n
  {
    if n > 0 {
      CreatedSize(n - 1);
      assert Created(n).Keys == Created(n - 1).Keys + {ShardId(n - 1)};
    }
  }

  /** Asked while shards are pending, the manager hands one out; so n requests hand out n shards. */
  lemma {:induction false} EveryShardHandedOut(n: nat, ops: seq<Op>)
    requires forall i :: 0 <= i < |ops| ==> ops[i].GetNext? && Allowed(Run(Created(n), ops[..i]), ops[i])
    ensures |HandedOut(Created(n), ops)| == if |ops| <= n then |ops| else n
    ensures |WithStatus(Run(Created(n), ops), Pending)| == n - |HandedOut(Created(n), ops)|
  {
    var t := Created(n);
    if ops == [] {
      CreatedSize(n);
      assert WithStatus(t, Pending) == t.Keys;
    } else {
      var init, op := ops[..|ops| - 1], ops[|ops| - 1];
      forall i | 0 <= i < |init| ensures init[i].GetNext? && Allowed(Run(t, init[..i]), init[i]) {
        assert init[..i] == ops[..i] && init[i] == ops[i];
      }
      EveryShardHandedOut(n, init);
      var cur := Run(t, init);
      PendingCount(cur);
      if HasPending(cur) {
        assert WithStatus(Step(cur, op), Pending) == WithStatus(cur, Pending) - {op.picked};
      } else {
        assert Step(cur, op) == cur;
      }
    }
  }

  lemma CreatedOver(t: Table, n: nat)
    ensures t + Created(n + 1) == (t + Created(n))[ShardId(n) := Pending]
    ensures map[] + Created(n) == Created(n)
  {
  }

  // ----- In place -----

  class Shard {
    const id: ShardId
    var status: Status

    constructor (id: ShardId)
      ensures this.id == id && status == Pending
    {
      this.id, status := id, Pending;
    }
  }

  class ShardManager {
    var shards: map<ShardId, Shard>

    ghost predicate Valid()
      reads this, shards.Values
    {
      && (forall i :: i in shards ==> shards[i].id == i)
      && (forall i, j :: i in shards && j in shards && i != j ==> shards[i] != shards[j])
    }

    ghost function View(): Table
      reads this, shards.Values
    {
      map i | i in shards :: shards[i].status
    }

    constructor ()
      ensures Valid() && shards == map[]
    {
      shards := map[];
    }

    method CreateShard(i: int)
      requires Valid()
      modifies this
      ensures Valid() && View() == old(View())[ShardId(i) := Pending]
    {
      ghost var before := View();
      var shard := new Shard(ShardId(i));
      shards := shards[ShardId(i) := shard];
      assert View() == before[ShardId(i) := Pending];
    }

    /** Creates one pending shard per split key; a shard of that number already there is replaced. */
    method CreateShards(splitKeys: nat)
      requires Valid()
      modifies this
      ensures Valid() && View() == old(View()) + Created(splitKeys)
    {
      ghost var before := View();
      for i := 0 to splitKeys
        invariant Valid() && View() == before + Created(i)
      {
        CreatedOver(before, i);
        CreateShard(i);
      }
    }

    /** Walks the map in any order; takes the first pending shard found. */
    method GetNextShard() returns (shard: Shard?, ok: bool)
      requires Valid()
      modifies shards.Values
      ensures Valid() && shards == old(shards)
      ensures ok <==> old(HasPending(View()))
      ensures !ok ==> shard == null && View() == old(View())
      ensures ok ==> shard != null && shard in shards.Values && shard.id in shards && shards[shard.id] == shard
      ensures ok ==> old(View())[shard.id] == Pending && View() == Step(old(View()), GetNext(shard.id))
    {
      var rest := shards.Keys;
      while rest != {}
        invariant rest <= shards.Keys
        invariant forall i :: i in shards && i !in rest ==> shards[i].status != Pending
        invariant View() == old(View())
        decreases rest
      {
        var i :| i in rest;
        rest := rest - {i};
        if shards[i].status == Pending {
          assert View()[i] == Pending;
          shards[i].status := Running;
          assert View() == old(View())[i := Running];
          return shards[i], true;
        }
      }
      assert forall i :: i in View() ==> View()[i] != Pending;
      return null, false;
    }

    method MarkShardComplete(id: ShardId) returns (found: bool)
      requires Valid()
      modifies shards.Values
      ensures Valid() && shards == old(shards) && found == (id in shards)
      ensures View() == Step(old(View()), MarkComplete(id))
    {
      if id !in shards {
        return false;
      }
      shards[id].status := Completed;
      assert View() == old(View())[id := Completed];
      found := true;
    }

    method MarkShardFailed(id: ShardId) returns (found: bool)
      requires Valid()
      modifies shards.Values
      ensures Valid() && shards == old(shards) && found == (id in shards)
      ensures View() == Step(old(View()), MarkFailed(id))
    {
      if id !in shards {
        return false;
      }
      shards[id].status := Failed;
      assert View() == old(View())[id := Failed];
      found := true;
    }

    /** GetPendingCount and GetCompletedCount. */
    method CountStatus(status: Status) returns (count: nat)
      requires Valid()
      ensures count == |WithStatus(View(), status)|
    {
      count := 0;
      var rest := shards.Keys;
      ghost var seen: set<ShardId> := {};
      while rest != {}
        invariant rest <= shards.Keys
        invariant forall i :: i in seen <==> i in shards && i !in rest && shards[i].status == status
        invariant count == |seen|
        decreases rest
      {
        var i :| i in rest;
        rest := rest - {i};
        if shards[i].status == status {
          count := count + 1;
          seen := seen + {i};
        }
      }
      assert seen == WithStatus(View(), status);
    }
  }
}
