/** Defaults of a pipeline configuration: a zero stands for the next number. */
module PipelineDefaults {
  import opened PipelineConfig

  const DEFAULT_PERIODS: nat := 2

  // Ports

  function Following(filled: seq<nat>): nat {
    if filled == [] then 0 else filled[|filled| - 1] + 1
  }

  /** A zero port takes the number after its predecessor. */
  function Filled(ports: seq<nat>): (f: seq<nat>)
    ensures |f| == |ports|
  {
    if ports == [] then []
    else
      var n := |ports| - 1;
      var front := Filled(ports[..n]);
      front + [if ports[n] == 0 then Following(front) else ports[n]]
  }

  /** Explicit numbers stay, and nothing is left to fill a second time. */
  lemma {:induction false} FillingKeeps(ports: seq<nat>)
    ensures Filled(Filled(ports)) == Filled(ports)
    ensures forall k :: 0 <= k < |ports| && ports[k] != 0 ==> Filled(ports)[k] == ports[k]
  {
    if ports != [] {
      var n := |ports| - 1;
      FillingKeeps(ports[..n]);
      assert Filled(ports)[..n] == Filled(ports[..n]);
    }
  }

  /** A zero takes the number after the one before it, whether that was given or filled in;
      a zero at the front stays. */
  lemma {:induction false} FilledAt(ports: seq<nat>, k: nat)
    requires k < |ports|
    ensures Filled(ports)[k] ==
            if ports[k] != 0 then ports[k] else if k == 0 then 0 else Filled(ports)[k - 1] + 1
  {
    var n := |ports| - 1;
    assert Filled(ports)[..n] == Filled(ports[..n]);
    if k < n {
      FilledAt(ports[..n], k);
    }
  }

  /** Ports left to the defaults are numbered from zero. */
  lemma {:induction false} DefaultsCount(ports: seq<nat>)
    requires forall k :: 0 <= k < |ports| ==> ports[k] == 0
    ensures forall k :: 0 <= k < |ports| ==> Filled(ports)[k] == k
  {
    if ports != [] {
      DefaultsCount(ports[..|ports| - 1]);
    }
  }

  method FillPorts(ports: array<nat>)
    modifies ports
    ensures ports[..] == Filled(old(ports[..]))
  {
    var next := 0;
    ghost var start := ports[..];
    for k := 0 to ports.Length
      invariant ports[..k] == Filled(start[..k]) && ports[k..] == start[k..]
      invariant next == Following(ports[..k])
    {
      assert ports[k] == start[k];
      if ports[k] == 0 {
        ports[k] := next;
      } else {
        next := ports[k];
      }
      next := next + 1;
      assert start[..k + 1][..k] == start[..k];
      assert ports[..k + 1] == ports[..k] + [ports[k]];
    }
    assert start[..ports.Length] == start;
  }

  // Storages

  predicate Defaulted(b: BufferConfig) {
    b.storage == 0 && !b.sharedUser
  }

  /** Buffers among the first n that get the next number. */
  function Defaults(buffers: seq<BufferConfig>, n: nat): (count: nat)
    requires n <= |buffers|
    ensures count <= n
  {
    if n == 0 then 0 else Defaults(buffers, n - 1) + if Defaulted(buffers[n - 1]) then 1 else 0
  }

  function StorageOf(buffers: seq<BufferConfig>, i: nat): nat
    requires i < |buffers|
  {
    if buffers[i].storage != 0 then buffers[i].storage
    else if buffers[i].sharedUser then buffers[i].sharedId
    else Defaults(buffers, i)
  }

  /** The buffers among the first n left to the defaults: no storage given, and no user of
      a shared one. */
  function LeftToDefaults(buffers: seq<BufferConfig>, n: nat): set<nat>
    requires n <= |buffers|
  {
    set k: nat | k < n && buffers[k].storage == 0 && !buffers[k].sharedUser
  }

  lemma {:induction false} DefaultsAreCounted(buffers: seq<BufferConfig>, n: nat)
    requires n <= |buffers|
    ensures Defaults(buffers, n) == |LeftToDefaults(buffers, n)|
  {
    if n > 0 {
      DefaultsAreCounted(buffers, n - 1);
      var before, last := LeftToDefaults(buffers, n - 1), buffers[n - 1];
      assert LeftToDefaults(buffers, n) ==
             if last.storage == 0 && !last.sharedUser then before + {n - 1} else before;
    }
  }

  /** A storage that was given stays; without one, the user of a shared buffer gets the
      storage of that, and any other buffer the count of those before it. */
  lemma StoragesGiven(buffers: seq<BufferConfig>, i: nat)
    requires i < |buffers|
    ensures buffers[i].storage != 0 ==> StorageOf(buffers, i) == buffers[i].storage
    ensures buffers[i].storage == 0 && buffers[i].sharedUser ==> StorageOf(buffers, i) == buffers[i].sharedId
    ensures buffers[i].storage == 0 && !buffers[i].sharedUser ==>
              StorageOf(buffers, i) == |LeftToDefaults(buffers, i)|
  {
    DefaultsAreCounted(buffers, i);
  }

  method AssignStorages(buffers: array<BufferConfig>)
    modifies buffers
    ensures forall i :: 0 <= i < buffers.Length ==>
              buffers[i] == old(buffers[i]).(storage := StorageOf(old(buffers[..]), i))
  {
    ghost var start := buffers[..];
    var next := 0;
    for i := 0 to buffers.Length
      invariant next == Defaults(start, i)
      invariant forall k :: 0 <= k < i ==> buffers[k] == start[k].(storage := StorageOf(start, k))
      invariant forall k :: i <= k < buffers.Length ==> buffers[k] == start[k]
    {
      if buffers[i].storage == 0 {
        if buffers[i].sharedUser {
          buffers[i] := buffers[i].(storage := buffers[i].sharedId);
        } else {
          buffers[i] := buffers[i].(storage := next);
          next := next + 1;
        }
      }
    }
  }

  /** No two buffers, users of shared ones aside, have the same storage. */
  ghost predicate OwnStorages(buffers: seq<BufferConfig>) {
    forall i, j :: 0 <= i < j < |buffers| && !buffers[i].sharedUser && !buffers[j].sharedUser ==>
      StorageOf(buffers, i) != StorageOf(buffers, j)
  }

  ghost predicate ExplicitDistinct(buffers: seq<BufferConfig>) {
    forall i, j :: 0 <= i < j < |buffers| && !buffers[i].sharedUser && !buffers[j].sharedUser &&
                   buffers[i].storage != 0 && buffers[j].storage != 0 ==>
      buffers[i].storage != buffers[j].storage
  }

  ghost predicate ExplicitAboveDefaults(buffers: seq<BufferConfig>) {
    forall i :: 0 <= i < |buffers| && !buffers[i].sharedUser && buffers[i].storage != 0 ==>
      buffers[i].storage >= Defaults(buffers, |buffers|)
  }

  lemma {:induction false} DefaultsGrow(buffers: seq<BufferConfig>, i: nat, n: nat)
    requires i < n <= |buffers| && Defaulted(buffers[i])
    ensures Defaults(buffers, i) < Defaults(buffers, n)
    decreases n
  {
    if i < n - 1 {
      DefaultsGrow(buffers, i, n - 1);
    }
  }

  /** The defaults take every number from zero on. */
  lemma {:induction false} DefaultWith(buffers: seq<BufferConfig>, id: nat, n: nat) returns (i: nat)
    requires n <= |buffers| && id < Defaults(buffers, n)
    ensures i < n && Defaulted(buffers[i]) && Defaults(buffers, i) == id
    decreases n
  {
    if id < Defaults(buffers, n - 1) {
      i := DefaultWith(buffers, id, n - 1);
    } else {
      i := n - 1;
    }
  }

  /** The defaults are meant to be free storages, but numbers given explicitly are not
      skipped: every buffer has a storage of its own exactly when the explicit numbers
      are distinct and none is below the count of defaulted buffers. */
  lemma OwnStoragesExactWhen(buffers: seq<BufferConfig>)
    ensures OwnStorages(buffers) <==> ExplicitDistinct(buffers) && ExplicitAboveDefaults(buffers)
  {
    var n := |buffers|;
    if ExplicitDistinct(buffers) && ExplicitAboveDefaults(buffers) {
      forall i, j | 0 <= i < j < n && !buffers[i].sharedUser && !buffers[j].sharedUser
        ensures StorageOf(buffers, i) != StorageOf(buffers, j)
      {
        if Defaulted(buffers[i]) {
          DefaultsGrow(buffers, i, j);
          DefaultsGrow(buffers, i, n);
        }
        if Defaulted(buffers[j]) {
          DefaultsGrow(buffers, j, n);
        }
      }
    } else if ExplicitDistinct(buffers) {
      var i :| 0 <= i < n && !buffers[i].sharedUser && buffers[i].storage != 0 &&
          buffers[i].storage < Defaults(buffers, n);
      var j := DefaultWith(buffers, buffers[i].storage, n);
      assert StorageOf(buffers, i) == StorageOf(buffers, j);
    } else {
      var i, j :| 0 <= i < j < n && !buffers[i].sharedUser && !buffers[j].sharedUser &&
          buffers[i].storage != 0 && buffers[i].storage == buffers[j].storage;
      assert StorageOf(buffers, i) == StorageOf(buffers, j);
    }
  }

  /** Storage 1 given first, then two buffers left to the defaults: the second of them
      gets storage 1 as well. */
  lemma DefaultsClashExample()
    ensures var own := BufferConfig(0, false, false, 0);
            !OwnStorages([own.(storage := 1), own, own])
  {
    var own := BufferConfig(0, false, false, 0);
    var buffers := [own.(storage := 1), own, own];
    assert Defaults(buffers, 1) == 0;
    assert Defaults(buffers, 2) == 1;
    assert StorageOf(buffers, 0) == StorageOf(buffers, 2);
  }

  /** A storage size left out is two periods. */
  method SetPeriods(storages: array<StorageConfig>)
    modifies storages
    ensures forall s :: 0 <= s < storages.Length ==>
              && storages[s].periods > 0
              && storages[s] == if old(storages[s].periods) == 0 then old(storages[s]).(periods := 2)
                                else old(storages[s])
  {
    for s := 0 to storages.Length
      invariant forall k :: s <= k < storages.Length ==> storages[k] == old(storages[k])
      invariant forall k :: 0 <= k < s ==>
                  storages[k] == if old(storages[k].periods) == 0 then old(storages[k]).(periods := DEFAULT_PERIODS)
                                 else old(storages[k])
    {
      if storages[s].periods == 0 {
        storages[s] := storages[s].(periods := DEFAULT_PERIODS);
      }
    }
  }
}
