// The mirror of the program that the user interface reads: records queue up and are applied in one go.
module ObserverState {
  import opened Common
  import opened AccessIds
  import opened World
  import opened Runs
  import opened Records
  import opened ProgramState
  import opened RuntimeState

  function Cached(cache: map<Int64, Journalled>, log: seq<Journalled>): map<Int64, Journalled> {
    if log == [] then cache else Cached(cache, log[..|log| - 1])[log[|log| - 1].id := log[|log| - 1]]
  }

  // Every record of a log with distinct ids can be found under its id.
  lemma {:induction false} CacheFindsRecords(cache: map<Int64, Journalled>, log: seq<Journalled>, i: nat)
    requires i < |log| && forall k, l :: 0 <= k < l < |log| ==> log[k].id != log[l].id
    ensures log[i].id in Cached(cache, log) && Cached(cache, log)[log[i].id] == log[i]
    decreases |log|
  {
    if i < |log| - 1 {
      CacheFindsRecords(cache, log[..|log| - 1], i);
    }
  }

  class Observer {
    const program: Program
    var pendings: seq<Journalled>
    var cache: map<Int64, Journalled>
    ghost var received: seq<Journalled>      // everything consumed so far

    // The mirror has applied all it received but what is still pending.
    ghost predicate Valid()
      reads this, program
    {
      && |pendings| <= |received| && received[|received| - |pendings|..] == pendings
      && Rebuilds(received[..|received| - |pendings|], program.State())
      && cache == Cached(map[], received[..|received| - |pendings|])
    }

    constructor ()
      ensures Valid() && received == [] && pendings == [] && fresh(program)
    {
      program := new Program();
      pendings, cache, received := [], map[], [];
      new;
      hide Rebuilds, InitialWorld;
      NothingReplayed();
      NothingCached();
      assert received[|received| - |pendings|..] == pendings && received[..|received| - |pendings|] == [];
    }

    method Consume(j: Journalled)
      requires Valid()
      modifies this`pendings, this`received
      ensures Valid() && received == old(received) + [j] && pendings == old(pendings) + [j]
    {
      pendings := pendings + [j];
      received := received + [j];
      assert received[..|received| - |pendings|] == old(received)[..|old(received)| - |old(pendings)|];
    }

    method ProcessOne(j: Journalled, ghost done: seq<Journalled>, ghost rest: seq<Journalled>)
      requires Rebuilds(done, program.State()) && cache == Cached(map[], done)
      requires ReplayOk(InitialWorld(), done + ([j] + rest))
      modifies this`cache, program
      ensures Rebuilds(done + [j], program.State()) && cache == Cached(map[], done + [j])
    {
      hide Rebuilds, Cached, ApplyRecord, RecordOk;
      NextRecordIsOk(done, [j] + rest, program.State());
      CachedMore(map[], done, j);
      var r := program.Apply(j);
      cache := cache[j.id := j];
    }

    // Afterwards the mirror is the replay of everything received.
    method Process()
      requires Valid() && ReplayOk(InitialWorld(), received)
      modifies this, program
      ensures Valid() && pendings == [] && received == old(received)
      ensures program.State() == Replay(InitialWorld(), received) && cache == Cached(map[], received)
    {
      hide Rebuilds, Cached, ReplayOk;
      var local := pendings;
      pendings := [];
      ghost var done := received[..|received| - |local|];
      assert received == done + local;
      var i := 0;
      assert done + local[..0] == done;
      while i < |local|
        invariant 0 <= i <= |local|
        invariant received == old(received) && pendings == []
        invariant Rebuilds(done + local[..i], program.State())
        invariant cache == Cached(map[], done + local[..i])
      {
        TakeOne(done, local, i);
        ProcessOne(local[i], done + local[..i], local[i + 1..]);
        i := i + 1;
      }
      assert local[..i] == local && received[..|received|] == received;
      RebuildsIs(received, program.State());
    }

    method GetMessage(id: Int64) returns (r: Option<Journalled>)
      ensures r == if UnmarkReceiving(id) in cache then Some(cache[UnmarkReceiving(id)]) else None
    {
      var key := UnmarkReceiving(id);
      r := if key in cache then Some(cache[key]) else None;
    }
  }

  lemma NothingCached()
    ensures Cached(map[], []) == map[]
  {
  }

  lemma TakeOne(done: seq<Journalled>, local: seq<Journalled>, i: nat)
    requires i < |local|
    ensures done + local[..i] + ([local[i]] + local[i + 1..]) == done + local
    ensures done + local[..i + 1] == done + local[..i] + [local[i]]
  {
  }

  lemma CachedMore(cache: map<Int64, Journalled>, log: seq<Journalled>, j: Journalled)
    ensures Cached(cache, log + [j]) == Cached(cache, log)[j.id := j]
  {
    assert (log + [j])[..|log|] == log;
  }

  lemma RebuildsIs(log: seq<Journalled>, w: World)
    requires Rebuilds(log, w)
    ensures ReplayOk(InitialWorld(), log) && Replay(InitialWorld(), log) == w
  {
  }

  // An observer that has processed all the runtime handed out shows exactly the runtime's program.
  lemma MirrorEqualsLive(runtime: Runtime, observer: Observer)
    requires runtime.Valid() && observer.Valid() && observer.pendings == [] && observer.received == runtime.consumed
    ensures observer.program.State() == runtime.program.State()
    ensures observer.program.State() == Replay(InitialWorld(), runtime.journal)
  {
    assert observer.received[..|observer.received|] == observer.received;
  }
}
