/** When a consumed value survives: the journal under failed, partial and complete appends and restarts. */
module Durability {
  import opened Basics
  import opened Journal
  import opened Replay

  /** Where the last line of a file begins, which is its end when the file is complete. */
  function LastStart(file: Bytes): (n: nat)
    ensures n <= |file| && Complete(file[..n])
    ensures forall i | n <= i < |file| :: file[i] != NEWLINE
  {
    if file == [] || file[|file| - 1] == NEWLINE then
      assert file[..|file|] == file;
      |file|
    else
      var front := file[..|file| - 1];
      var n := LastStart(front);
      assert front[..n] == file[..n];
      assert forall i | n <= i < |front| :: file[i] == front[i];
      n
  }

  /** The complete lines of a file, and the torn line after them. */
  function WholeOf(file: Bytes): Bytes {
    file[..LastStart(file)]
  }

  function TailOf(file: Bytes): Bytes {
    file[LastStart(file)..]
  }

  /** The line a value lands on when it is appended. */
  function Landed(file: Bytes, v: Bytes): Option<Bytes> {
    HexDecode(StripReturn(TailOf(file) + HexEncode(v)))
  }

  /** Appending `v` to this file writes it where no restart finds it, and some restart succeeds. */
  predicate LosesCommit(file: Bytes, v: Bytes) {
    var before := Load(WholeOf(file));
    && before.Some? && v !in before.value
    && Landed(file, v).Some? && Landed(file, v).value != v
  }

  /** However the file goes on, it holds `v` whenever it loads. */
  ghost predicate Kept(file: Bytes, v: Bytes) {
    forall more :: Load(file + more).Some? ==> v in Load(file + more).value
  }

  lemma KeptExtends(file: Bytes, more: Bytes, v: Bytes)
    requires Kept(file, v)
    ensures Kept(file + more, v)
  {
    forall further | Load(file + more + further).Some?
      ensures v in Load(file + more + further).value
    {
      assert file + more + further == file + (more + further);
    }
  }

  lemma KeptIsLoaded(file: Bytes, v: Bytes)
    requires Kept(file, v)
    ensures Load(file).Some? ==> v in Load(file).value
  {
    assert file + [] == file;
  }

  /** What any file loads after an append and whatever follows it. */
  lemma LoadLanded(file: Bytes, v: Bytes, more: Bytes)
    ensures Load(file + Line(v) + more)
         == match (Load(WholeOf(file)), Landed(file, v), Load(more))
            case (Some(before), Some(entry), Some(rest)) => Some(before + ([entry] + rest))
            case _ => None
  {
    hide Load, HexEncode, HexDecode, StripReturn, Complete, LastStart;
    var whole, tail := WholeOf(file), TailOf(file);
    var line := tail + HexEncode(v);
    assert file + Line(v) + more == whole + (line + [NEWLINE] + more);
    LoadComplete(whole, line + [NEWLINE] + more);
    AnyLine(line, more);
  }

  lemma NothingLoads()
    ensures Load([]) == Some([])
  {
  }

  /** An append is for good exactly when it is not lost. */
  lemma CommitIsKept(file: Bytes, v: Bytes)
    ensures Kept(file + Line(v), v) <==> !LosesCommit(file, v)
  {
    hide Load, Landed, WholeOf, Line;
    if LosesCommit(file, v) {
      LoadLanded(file, v, []);
      NothingLoads();
      assert file + Line(v) + [] == file + Line(v);
      if Kept(file + Line(v), v) {
        KeptIsLoaded(file + Line(v), v);
      }
    } else {
      forall more | Load(file + Line(v) + more).Some?
        ensures v in Load(file + Line(v) + more).value
      {
        LoadLanded(file, v, more);
        var before, entry := Load(WholeOf(file)).value, Landed(file, v).value;
        assert (before + ([entry] + Load(more).value))[|before|] == entry;
        assert forall x | x in before :: x in before + ([entry] + Load(more).value);
      }
    }
  }

  /** Digits in front of an encoding: the value they stand for comes first, if they stand for one. */
  lemma {:induction false} HexAhead(h: Bytes, v: Bytes)
    ensures HexDecode(h + HexEncode(v)) == match HexDecode(h) case Some(t) => Some(t + v) case None => None
  {
    if |h| == 0 {
      assert h + HexEncode(v) == HexEncode(v) && [] + v == v;
      HexRoundTrip(v);
    } else if |h| == 1 {
      OddHex(h + HexEncode(v));
    } else {
      assert (h + HexEncode(v))[2..] == h[2..] + HexEncode(v);
      HexAhead(h[2..], v);
      if HexDecode(h).Some? {
        var rest := HexDecode(h[2..]).value;
        assert [HexDecode(h).value[0]] + (rest + v) == ([HexDecode(h).value[0]] + rest) + v;
      }
    }
  }

  lemma LandedPlainly(file: Bytes, v: Bytes)
    requires v != [] || RETURN !in TailOf(file)
    ensures Landed(file, v) == match HexDecode(TailOf(file)) case Some(t) => Some(t + v) case None => None
  {
    hide HexEncode, HexDecode, LastStart;
    var line := TailOf(file) + HexEncode(v);
    HexAhead(TailOf(file), v);
    if v != [] {
      assert line[|line| - 1] == HexEncode(v)[|HexEncode(v)| - 1];
    } else if line != [] {
      assert HexEncode(v) == [];
      assert line[|line| - 1] == TailOf(file)[|TailOf(file)| - 1];
    }
    assert StripReturn(line) == line;
  }

  /** In plain words, for a value of at least one byte: the append is lost exactly when the complete
      lines load without the value and a torn line follows them that decodes. */
  lemma LosesCommitPlainly(file: Bytes, v: Bytes)
    requires v != [] || RETURN !in TailOf(file)
    ensures LosesCommit(file, v)
       <==> && Load(WholeOf(file)).Some? && v !in Load(WholeOf(file)).value
            && TailOf(file) != [] && HexDecode(TailOf(file)).Some?
  {
    hide Load, HexEncode, HexDecode, LastStart;
    LandedPlainly(file, v);
    DecodedLength(TailOf(file));
    if HexDecode(TailOf(file)).Some? {
      var t := HexDecode(TailOf(file)).value;
      assert t + v == v <==> t == [] by {
        assert |t + v| == |t| + |v|;
        assert t == [] ==> t + v == v;
      }
    }
  }

  /** What a file with a torn line loads. */
  lemma LoadTorn(file: Bytes)
    ensures Load(file)
         == match (Load(WholeOf(file)), HexDecode(TailOf(file)))
            case (Some(before), Some(entry)) => if TailOf(file) == [] then Some(before) else Some(before + [entry])
            case _ => None
  {
    hide HexDecode, LastStart;
    var whole, tail := WholeOf(file), TailOf(file);
    assert file == whole + tail;
    LoadComplete(whole, tail);
    if tail == [] {
      assert HexDecode([]) == Some([]) by {
        EmptyHex();
      }
    } else {
      assert LineEnd(tail) == |tail|;
    }
    if Load(whole).Some? {
      assert Load(whole).value + [] == Load(whole).value;
    }
  }

  lemma EmptyHex()
    ensures HexDecode([]) == Some([])
  {
  }

  lemma WholeIsKept(file: Bytes, v: Bytes)
    requires Load(WholeOf(file)).Some? && v in Load(WholeOf(file)).value
    ensures Kept(file, v)
  {
    hide Load, LastStart;
    forall more | Load(file + more).Some?
      ensures v in Load(file + more).value
    {
      assert file + more == WholeOf(file) + (TailOf(file) + more);
      LoadComplete(WholeOf(file), TailOf(file) + more);
    }
  }

  /** A torn value does not stay: what is appended next glues it away. */
  lemma TornIsNotKept(file: Bytes)
    requires Load(WholeOf(file)).Some? && TailOf(file) != [] && HexDecode(TailOf(file)).Some?
    requires HexDecode(TailOf(file)).value !in Load(WholeOf(file)).value
    ensures !Kept(file, HexDecode(TailOf(file)).value)
  {
    hide Load, HexDecode, HexEncode, LastStart;
    var t := HexDecode(TailOf(file)).value;
    LandedPlainly(file, [0]);
    LoadLanded(file, [0], []);
    NothingLoads();
    assert t + [0] != t;
    assert file + Line([0]) + [] == file + Line([0]);
    var loaded := Load(file + Line([0])).value;
    assert loaded == Load(WholeOf(file)).value + [t + [0]];
    assert t !in loaded;
  }

  /** Everything memory holds is in the journal for good. */
  ghost predicate Recorded(c: Cache) {
    c.backend.Some? && forall v | v in c.consumed :: Kept(c.backend.value, v)
  }

  datatype CacheOp = Take(value: Bytes, io: AppendOutcome) | Reload

  function CacheStep(c: Cache, op: CacheOp): Option<Cache> {
    match op
    case Take(v, io) => Some(c.Consume(v, io).0)
    case Reload => Reloaded(c)
  }

  /** What can be known before the step: a commit is not lost, and a restart finds no torn value. Appends
      that fail, at any byte, are always in order. */
  predicate InOrder(c: Cache, op: CacheOp)
    requires c.backend.Some?
  {
    var file := c.backend.value;
    match op
    case Take(v, io) => v in c.consumed || io.Failed? || !LosesCommit(file, v)
    case Reload =>
      Load(file).Some? && TailOf(file) != [] ==>
        Load(WholeOf(file)).Some? && HexDecode(TailOf(file)).Some?
        && HexDecode(TailOf(file)).value in Load(WholeOf(file)).value
  }

  lemma ConsumeExtends(c: Cache, v: Bytes, io: AppendOutcome)
    requires c.backend.Some?
    ensures var c' := c.Consume(v, io).0;
            && c'.backend.Some?
            && (v !in c.consumed && io.Committed? ==> c'.backend.value == c.backend.value + Line(v))
            && exists more :: c'.backend.value == c.backend.value + more
  {
    var file := c.backend.value;
    assert file + [] == file;
    assert c.Consume(v, io).0.backend.value == file + c.Consume(v, io).0.backend.value[|file|..];
  }

  lemma ConsumeKeeps(c: Cache, v: Bytes, io: AppendOutcome, x: Bytes)
    requires c.backend.Some? && Kept(c.backend.value, x)
    ensures var c' := c.Consume(v, io).0;
            c'.backend.Some? && Kept(c'.backend.value, x) && c.consumed <= c'.consumed
  {
    ConsumeExtends(c, v, io);
    var more :| c.Consume(v, io).0.backend.value == c.backend.value + more;
    KeptExtends(c.backend.value, more, x);
  }

  lemma TakeRecords(c: Cache, v: Bytes, io: AppendOutcome)
    requires Recorded(c)
    ensures Recorded(c.Consume(v, io).0) <==> InOrder(c, Take(v, io))
  {
    hide Kept, LosesCommit;
    var c' := c.Consume(v, io).0;
    forall x | x in c.consumed
      ensures c'.backend.Some? && Kept(c'.backend.value, x)
    {
      ConsumeKeeps(c, v, io, x);
    }
    if v !in c.consumed && io.Committed? {
      ConsumeExtends(c, v, io);
      CommitIsKept(c.backend.value, v);
      assert v in c'.consumed;
    }
  }

  lemma ReloadRecords(c: Cache)
    requires c.backend.Some? && Reloaded(c).Some?
    ensures Recorded(Reloaded(c).value) <==> InOrder(c, Reload)
  {
    hide Kept, LastStart;
    var file := c.backend.value;
    var c' := Reloaded(c).value;
    LoadTorn(file);
    hide Load, HexDecode;
    var before := Load(WholeOf(file)).value;
    forall v | v in before
      ensures Kept(file, v)
    {
      WholeIsKept(file, v);
    }
    if TailOf(file) != [] {
      var t := HexDecode(TailOf(file)).value;
      assert (before + [t])[|before|] == t;
      assert t in c'.consumed;
      if t !in before {
        TornIsNotKept(file);
      }
    }
  }

  ghost predicate RecordedThroughout(c: Cache, ops: seq<CacheOp>)
    decreases |ops|
  {
    Recorded(c) && (ops != [] && CacheStep(c, ops[0]).Some? ==> RecordedThroughout(CacheStep(c, ops[0]).value, ops[1..]))
  }

  predicate InOrderThroughout(c: Cache, ops: seq<CacheOp>)
    decreases |ops|
  {
    ops != [] && c.backend.Some? && CacheStep(c, ops[0]).Some? ==>
      InOrder(c, ops[0]) && InOrderThroughout(CacheStep(c, ops[0]).value, ops[1..])
  }

  /** Over any sequence of consumptions, failing at any byte, and restarts: every value in memory is in
      the journal for good, at every moment, exactly when no commit is lost to a torn line and no restart
      takes in a torn value. */
  lemma {:induction false} MemoryIsRecorded(c: Cache, ops: seq<CacheOp>)
    requires Recorded(c)
    ensures RecordedThroughout(c, ops) <==> InOrderThroughout(c, ops)
    decreases |ops|
  {
    hide Recorded, InOrder;
    RecordedHasBackend(c);
    if ops != [] && CacheStep(c, ops[0]).Some? {
      match ops[0] {
        case Take(v, io) => TakeRecords(c, v, io);
        case Reload => ReloadRecords(c);
      }
      var next := CacheStep(c, ops[0]).value;
      if Recorded(next) {
        MemoryIsRecorded(next, ops[1..]);
      }
    }
  }

  lemma RecordedHasBackend(c: Cache)
    ensures Recorded(c) ==> c.backend.Some?
  {
  }

  /** A value reported consumed can be consumed again after a restart exactly when its commit was lost. */
  lemma SpentAgain(c: Cache, v: Bytes)
    requires c.backend.Some? && v !in c.consumed
    ensures var (c', r) := c.Consume(v, Committed);
            var restarted := Reloaded(c');
            && r.Ok?
            && (restarted.Some? && restarted.value.Consume(v, Committed).1.Ok? <==> LosesCommit(c.backend.value, v))
  {
    var file := c.backend.value;
    hide Load, LosesCommit, Line;
    CommitIsKept(file, v);
    if LosesCommit(file, v) {
      LostIsGone(file, v);
    } else {
      KeptIsLoaded(file + Line(v), v);
    }
  }

  lemma LostIsGone(file: Bytes, v: Bytes)
    requires LosesCommit(file, v)
    ensures Load(file + Line(v)).Some? && v !in Load(file + Line(v)).value
  {
    hide Load, Landed, WholeOf, Line;
    LoadLanded(file, v, []);
    NothingLoads();
    assert file + Line(v) + [] == file + Line(v);
  }

  /** An input on which it is: an append of `u` fails with an even number of its digits written, `v` is
      consumed and reported so, and after a restart it is consumed and reported so once more. */
  lemma TornThenSpentTwice(values: seq<Bytes>, u: Bytes, k: nat, v: Bytes)
    requires 0 < k <= |u| && u !in values && v !in values && u != v
    ensures var c := Cache((set x | x in values), Some(Written(values)));
            var (c1, first) := c.Consume(u, Failed(2 * k));
            var (c2, second) := c1.Consume(v, Committed);
            var c3 := Reloaded(c2);
            && WithBackend(Written(values)) == Some(c) && first.Err? && second.Ok?
            && c3.Some? && c3.value.Consume(v, Committed).1.Ok?
  {
    hide Load, HexEncode, HexDecode;
    JournalRoundTrip(values);
    GluedLine(values, u, 2 * k, v);
    var glued := u[..k] + v;
    assert |glued| == k + |v|;
    assert v !in values + [glued];
    var c1 := Cache((set x | x in values), Some(Written(values))).Consume(u, Failed(2 * k)).0;
    assert c1.backend.value == Written(values) + Line(u)[..2 * k];
  }
}
