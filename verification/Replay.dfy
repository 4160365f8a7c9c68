/** Replay protection: an in-memory set, optionally backed by a durable journal. */
module Replay {
  import opened Basics
  import opened Journal

  /** What the storage did with an append: all of it, or an error after `written` bytes. */
  datatype AppendOutcome = Committed | Failed(written: nat)

  datatype ReplayError = Replayed | StorageFailed

  function AppendAndSync(file: Bytes, value: Bytes, io: AppendOutcome): (Bytes, bool) {
    match io
    case Committed => (file + Line(value), true)
    case Failed(n) => (file + Line(value)[..if n < |Line(value)| then n else |Line(value)|], false)
  }

  /** The value of a cache: its set, and the bytes of the journal behind it. */
  datatype Cache = Cache(consumed: set<Bytes>, backend: Option<Bytes>) {

    function Consume(value: Bytes, io: AppendOutcome): (Cache, Result<(), ReplayError>) {
      if value in consumed then (this, Err(Replayed))
      else if backend.Some? then
        var (file, durable) := AppendAndSync(backend.value, value, io);
        if durable then (Cache(consumed + {value}, Some(file)), Ok(()))
        else (this.(backend := Some(file)), Err(StorageFailed))
      else (this.(consumed := consumed + {value}), Ok(()))
    }

    function ResetEphemeral(): Cache {
      if backend.None? then this.(consumed := {}) else this
    }

    /** The journal is whole and says exactly what memory says. */
    ghost predicate Mirrors() {
      backend.Some? ==>
        && Complete(backend.value)
        && WithBackend(backend.value) == Some(this)
    }
  }

  const EPHEMERAL := Cache({}, None)

  function WithBackend(file: Bytes): Option<Cache> {
    match Load(file)
    case Some(values) => Some(Cache((set v | v in values), Some(file)))
    case None => None
  }

  /** What a new process finds: nothing, or what the journal loads, unless it does not load. */
  function Reloaded(c: Cache): Option<Cache> {
    if c.backend.None? then Some(EPHEMERAL) else WithBackend(c.backend.value)
  }

  /** Storage that either commits a line or leaves the file alone. */
  predicate Atomic(io: AppendOutcome) {
    io == Committed || io == Failed(0)
  }

  function ConsumeAll(c: Cache, calls: seq<(Bytes, AppendOutcome)>): Cache
    decreases |calls|
  {
    if calls == [] then c else ConsumeAll(c.Consume(calls[0].0, calls[0].1).0, calls[1..])
  }

  /** Consumption is once-only: after Ok every further attempt is a replay; memory changes only by
      the value an Ok reports. */
  lemma ConsumeOnce(c: Cache, value: Bytes, io: AppendOutcome, again: AppendOutcome)
    ensures var (c', r) := c.Consume(value, io);
            && (r.Ok? <==> value !in c.consumed && (c.backend.Some? ==> io.Committed?))
            && c'.consumed == c.consumed + (if r.Ok? then {value} else {})
            && (value in c'.consumed <==> c'.Consume(value, again) == (c', Err(Replayed)))
  {
  }

  lemma AppendToComplete(file: Bytes, value: Bytes)
    requires Complete(file)
    ensures Complete(file + Line(value))
    ensures Load(file + Line(value))
         == match Load(file) case Some(values) => Some(values + [value]) case None => None
  {
    LoadComplete(file, Line(value));
    LoadLine(value, []);
    assert Line(value) + [] == Line(value) && [value] + [] == [value];
  }

  /** What `consume` reports as consumed is what a restart will find, exactly when the lines already
      in the journal load and the last of them was not torn. */
  lemma OkIsDurable(c: Cache, value: Bytes, whole: Bytes, tail: Bytes)
    requires c.backend == Some(whole + tail) && Complete(whole)
    requires forall i | 0 <= i < |tail| :: tail[i] != NEWLINE && tail[i] != RETURN
    requires value !in c.consumed && (Load(whole).Some? ==> value !in Load(whole).value)
    ensures var (c', r) := c.Consume(value, Committed);
            && r.Ok?
            && var rebuilt := WithBackend(c'.backend.value);
               (rebuilt.Some? && value in rebuilt.value.consumed <==> Load(whole).Some? && tail == [])
  {
    AppendReadsBack(whole, tail, value);
  }

  lemma ConsumeKeepsMirror(c: Cache, value: Bytes, io: AppendOutcome)
    requires c.Mirrors() && Atomic(io)
    ensures c.Consume(value, io).0.Mirrors()
  {
    if c.backend.Some? {
      var file := c.backend.value;
      AppendToComplete(file, value);
      var values := Load(file).value;
      assert (set v | v in values + [value]) == (set v | v in values) + {value};
      assert file + Line(value)[..0] == file;
    }
  }

  /** Over any sequence of calls, with storage that commits or leaves the file alone, the cache
      rebuilt from the journal is the cache itself: it accepts and rejects the same values. */
  lemma {:induction false} RebuiltCacheAgrees(c: Cache, calls: seq<(Bytes, AppendOutcome)>)
    requires c.Mirrors() && c.backend.Some?
    requires forall i | 0 <= i < |calls| :: Atomic(calls[i].1)
    ensures var end := ConsumeAll(c, calls);
            && end.Mirrors()
            && end.backend.Some? && WithBackend(end.backend.value) == Some(end)
    decreases |calls|
  {
    if calls != [] {
      assert Atomic(calls[0].1);
      ConsumeKeepsMirror(c, calls[0].0, calls[0].1);
      assert forall i | 0 <= i < |calls[1..]| :: calls[1..][i] == calls[i + 1];
      RebuiltCacheAgrees(c.Consume(calls[0].0, calls[0].1).0, calls[1..]);
    }
  }

  /** The cache object. Its backend is the file it owns. */
  class ReplayCache {
    var consumed: set<Bytes>
    var backend: Option<Bytes>

    ghost function View(): Cache
      reads this
    {
      Cache(consumed, backend)
    }

    constructor Default()
      ensures View() == EPHEMERAL
    {
      consumed, backend := {}, None;
    }

    constructor Loaded(values: seq<Bytes>, file: Bytes)
      requires Load(file) == Some(values)
      ensures WithBackend(file) == Some(View())
    {
      consumed, backend := (set v | v in values), Some(file);
    }

    method Consume(nonce: Bytes, io: AppendOutcome) returns (r: Result<(), ReplayError>)
      modifies this
      ensures (View(), r) == old(View()).Consume(nonce, io)
    {
      if nonce in consumed {
        return Err(Replayed);
      }
      if backend.Some? {
        var (file, durable) := AppendAndSync(backend.value, nonce, io);
        backend := Some(file);
        if !durable {
          return Err(StorageFailed);
        }
      }
      consumed := consumed + {nonce};
      return Ok(());
    }

    method ResetEphemeral()
      modifies this
      ensures View() == old(View()).ResetEphemeral()
    {
      if backend.None? {
        consumed := {};
      }
    }
  }
}
