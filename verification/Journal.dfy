/** The replay journal: one lower-case hexadecimal line per consumed value. */
module Journal {
  import opened Basics

  const NEWLINE: byte := 10
  const RETURN: byte := 13

  function DigitOf(n: int): byte
    requires 0 <= n < 16
  {
    if n < 10 then 48 + n else 87 + n
  }

  /** hex::decode accepts both letter cases. */
  function ValueOf(c: byte): Option<int> {
    if 48 <= c <= 57 then Some(c - 48)
    else if 97 <= c <= 102 then Some(c - 87)
    else if 65 <= c <= 70 then Some(c - 55)
    else None
  }

  function HexEncode(v: Bytes): (h: Bytes)
    ensures |h| == 2 * |v|
    ensures forall i | 0 <= i < |h| :: h[i] != NEWLINE && h[i] != RETURN
  {
    if v == [] then [] else [DigitOf(v[0] / 16), DigitOf(v[0] % 16)] + HexEncode(v[1..])
  }

  /** None stands for both decoding errors, an odd length and a character outside the alphabet. */
  function HexDecode(h: Bytes): Option<Bytes> {
    if |h| == 0 then Some([])
    else if |h| == 1 then None
    else
      match (ValueOf(h[0]), ValueOf(h[1]), HexDecode(h[2..]))
      case (Some(hi), Some(lo), Some(rest)) => (var b: byte := 16 * hi + lo; Some([b] + rest))
      case _ => None
  }

  /** The index of the first newline, or |file|. */
  function LineEnd(file: Bytes): (n: nat)
    ensures n <= |file|
    ensures n < |file| ==> file[n] == NEWLINE
    ensures forall i | 0 <= i < n :: file[i] != NEWLINE
  {
    if file == [] || file[0] == NEWLINE then 0 else 1 + LineEnd(file[1..])
  }

  function StripReturn(line: Bytes): Bytes {
    if line != [] && line[|line| - 1] == RETURN then line[..|line| - 1] else line
  }

  /** `FileReplayStateBackend::load`: decode every line, failing as a whole on the first bad one.
      A last line without a newline is still a line. */
  function Load(file: Bytes): Option<seq<Bytes>>
    decreases |file|
  {
    if file == [] then Some([])
    else
      var n := LineEnd(file);
      if n == |file| then
        match HexDecode(file)
        case Some(v) => Some([v])
        case None => None
      else
        match (HexDecode(StripReturn(file[..n])), Load(file[n + 1..]))
        case (Some(v), Some(rest)) => Some([v] + rest)
        case _ => None
  }

  /** The bytes `append_and_sync` writes for one value. */
  function Line(v: Bytes): Bytes {
    HexEncode(v) + [NEWLINE]
  }

  /** A file that holds the complete appends of `values`, in order. */
  function Written(values: seq<Bytes>): Bytes {
    if values == [] then [] else Line(values[0]) + Written(values[1..])
  }

  lemma {:induction false} HexConcat(v: Bytes, tail: Bytes)
    ensures HexDecode(HexEncode(v) + tail)
         == (match HexDecode(tail) case Some(t) => Some(v + t) case None => None)
  {
    if v == [] {
      assert HexEncode(v) + tail == tail;
      if HexDecode(tail).Some? {
        assert v + HexDecode(tail).value == HexDecode(tail).value;
      }
    } else {
      var h := HexEncode(v) + tail;
      assert h[2..] == HexEncode(v[1..]) + tail;
      assert h[0] == DigitOf(v[0] / 16) && h[1] == DigitOf(v[0] % 16);
      HexConcat(v[1..], tail);
      if HexDecode(tail).Some? {
        assert [v[0]] + (v[1..] + HexDecode(tail).value) == v + HexDecode(tail).value;
      }
    }
  }

  lemma HexRoundTrip(v: Bytes)
    ensures HexDecode(HexEncode(v)) == Some(v)
  {
    HexConcat(v, []);
    assert HexEncode(v) + [] == HexEncode(v) && v + [] == v;
  }

  lemma HexInjective(a: Bytes, b: Bytes)
    requires HexEncode(a) == HexEncode(b)
    ensures a == b
  {
    HexRoundTrip(a);
    HexRoundTrip(b);
  }

  lemma {:induction false} HexEncodePrefix(v: Bytes, k: nat)
    requires k <= |v|
    ensures HexEncode(v)[..2 * k] == HexEncode(v[..k])
  {
    if k > 0 {
      HexEncodePrefix(v[1..], k - 1);
      assert v[..k][1..] == v[1..][..k - 1];
      assert HexEncode(v)[..2 * k] == HexEncode(v)[..2] + HexEncode(v[1..])[..2 * (k - 1)];
    }
  }

  /** Decoding a cut encoding followed by further digits: an odd cut fails, an even one glues. */
  lemma TornHex(v: Bytes, cut: nat, more: Bytes)
    requires cut <= 2 * |v|
    ensures HexDecode(HexEncode(v)[..cut] + HexEncode(more))
         == if cut % 2 == 0 then Some(v[..cut / 2] + more) else None
  {
    hide *;
    if cut % 2 == 0 {
      EvenCut(v, cut / 2, more);
      assert 2 * (cut / 2) == cut;
    } else {
      OddHex(HexEncode(v)[..cut] + HexEncode(more));
    }
  }

  lemma EvenCut(v: Bytes, k: nat, more: Bytes)
    requires k <= |v|
    ensures HexDecode(HexEncode(v)[..2 * k] + HexEncode(more)) == Some(v[..k] + more)
  {
    hide HexDecode, HexEncode;
    HexEncodePrefix(v, k);
    HexConcat(v[..k], HexEncode(more));
    HexRoundTrip(more);
  }

  lemma {:induction false} OddHex(h: Bytes)
    requires |h| % 2 == 1
    ensures HexDecode(h).None?
  {
    if |h| > 1 {
      OddHex(h[2..]);
    }
  }

  predicate IsHexDigit(c: byte) {
    48 <= c <= 57 || 65 <= c <= 70 || 97 <= c <= 102
  }

  function Upper(h: Bytes): Bytes {
    seq(|h|, i requires 0 <= i < |h| => if 97 <= h[i] <= 122 then h[i] - 32 else h[i])
  }

  /** Exactly the texts of an even number of hexadecimal digits decode, in either case, and to the same value
      in both. */
  lemma {:induction false} HexTexts(h: Bytes)
    ensures HexDecode(h).Some? <==> |h| % 2 == 0 && forall i | 0 <= i < |h| :: IsHexDigit(h[i])
    ensures HexDecode(h).Some? ==> HexDecode(Upper(h)) == HexDecode(h)
    decreases |h|
  {
    if |h| == 0 {
      assert Upper(h) == h;
    } else if |h| > 1 {
      HexTexts(h[2..]);
      assert Upper(h)[2..] == Upper(h[2..]);
      assert forall i | 2 <= i < |h| :: h[i] == h[2..][i - 2];
    }
  }

  function Ahead(values: seq<Bytes>, loaded: Option<seq<Bytes>>): Option<seq<Bytes>> {
    if loaded.Some? then Some(values + loaded.value) else None
  }

  lemma AheadAhead(v: Bytes, values: seq<Bytes>, loaded: Option<seq<Bytes>>)
    ensures Ahead([v], Ahead(values, loaded)) == Ahead([v] + values, loaded)
  {
    if loaded.Some? {
      assert [v] + (values + loaded.value) == ([v] + values) + loaded.value;
    }
  }

  /** A line, whatever it holds, and what follows it. */
  lemma AnyLine(line: Bytes, rest: Bytes)
    requires forall i | 0 <= i < |line| :: line[i] != NEWLINE
    ensures Load(line + [NEWLINE] + rest)
         == (match HexDecode(StripReturn(line)) case Some(v) => Ahead([v], Load(rest)) case None => None)
  {
    hide HexDecode, StripReturn;
    var file := line + [NEWLINE] + rest;
    var n := LineEnd(file);
    assert file[|line|] == NEWLINE;
    assert forall i | 0 <= i < |line| :: file[i] == line[i];
    assert n == |line|;
    assert file[..n] == line && file[n + 1..] == rest;
  }

  lemma FirstLine(line: Bytes, rest: Bytes)
    requires forall i | 0 <= i < |line| :: line[i] != NEWLINE && line[i] != RETURN
    ensures Load(line + [NEWLINE] + rest)
         == (match HexDecode(line) case Some(v) => Ahead([v], Load(rest)) case None => None)
  {
    AnyLine(line, rest);
    assert StripReturn(line) == line;
  }

  lemma LoadLine(v: Bytes, rest: Bytes)
    ensures Load(Line(v) + rest) == Ahead([v], Load(rest))
  {
    FirstLine(HexEncode(v), rest);
    HexRoundTrip(v);
  }

  /** No torn line at the end. */
  predicate Complete(file: Bytes) {
    file == [] || file[|file| - 1] == NEWLINE
  }

  /** Whatever follows a complete file is read as lines of its own. */
  lemma {:induction false} LoadComplete(file: Bytes, tail: Bytes)
    requires Complete(file)
    ensures Load(file + tail)
         == (match Load(file) case Some(values) => Ahead(values, Load(tail)) case None => None)
    decreases |file|
  {
    if file == [] {
      assert file + tail == tail;
      if Load(tail).Some? {
        assert [] + Load(tail).value == Load(tail).value;
      }
    } else {
      var n := LineEnd(file);
      LineEndExtends(file, tail);
      assert (file + tail)[..n] == file[..n] && (file + tail)[n + 1..] == file[n + 1..] + tail;
      LoadComplete(file[n + 1..], tail);
      if HexDecode(StripReturn(file[..n])).Some? && Load(file[n + 1..]).Some? {
        AheadAhead(HexDecode(StripReturn(file[..n])).value, Load(file[n + 1..]).value, Load(tail));
      }
    }
  }

  lemma LineEndExtends(file: Bytes, tail: Bytes)
    requires Complete(file) && file != []
    ensures LineEnd(file + tail) == LineEnd(file) < |file|
  {
    var n := LineEnd(file + tail);
    assert (file + tail)[|file| - 1] == NEWLINE;
    assert file[n] == (file + tail)[n];
    assert forall i | 0 <= i < n :: file[i] == (file + tail)[i];
  }

  lemma {:induction false} WrittenComplete(values: seq<Bytes>)
    ensures Complete(Written(values))
  {
    if values != [] {
      WrittenComplete(values[1..]);
    }
  }

  lemma LoadPast(values: seq<Bytes>, tail: Bytes)
    ensures Load(Written(values) + tail) == Ahead(values, Load(tail))
  {
    WrittenComplete(values);
    LoadComplete(Written(values), tail);
    JournalRoundTrip(values);
  }

  /** Loading any sequence of complete appends returns exactly those values, in order. */
  lemma {:induction false} JournalRoundTrip(values: seq<Bytes>)
    ensures Load(Written(values)) == Some(values)
  {
    if values != [] {
      LoadLine(values[0], Written(values[1..]));
      JournalRoundTrip(values[1..]);
      assert values == [values[0]] + values[1..];
    }
  }

  lemma {:induction false} WrittenSnoc(values: seq<Bytes>, v: Bytes)
    ensures Written(values + [v]) == Written(values) + Line(v)
  {
    if values == [] {
      assert values + [v] == [v];
      assert Written([v]) == Line(v) + Written([]) == Line(v);
    } else {
      assert (values + [v])[1..] == values[1..] + [v];
      WrittenSnoc(values[1..], v);
    }
  }

  /** What a loader makes of a journal cut `cut` bytes into the line of `v`. */
  function TornResult(values: seq<Bytes>, v: Bytes, cut: nat): Option<seq<Bytes>>
    requires cut <= 2 * |v|
  {
    if cut == 0 then Some(values)
    else if cut % 2 == 1 then None
    else Some(values + [v[..cut / 2]])
  }

  lemma TornLine(values: seq<Bytes>, v: Bytes, cut: nat)
    requires cut <= 2 * |v|
    ensures Load(Written(values) + Line(v)[..cut]) == TornResult(values, v, cut)
  {
    var torn := Line(v)[..cut];
    assert torn == HexEncode(v)[..cut];
    LoadPast(values, torn);
    if cut == 0 {
      assert values + [] == values;
    } else {
      TornHex(v, cut, []);
      assert torn + HexEncode([]) == torn && v[..cut / 2] + [] == v[..cut / 2];
      assert LineEnd(torn) == |torn|;
    }
  }

  /** Every truncation of a journal is `whole` complete lines and a cut into the next one. */
  lemma {:induction false} LocateCut(values: seq<Bytes>, n: nat) returns (whole: nat, cut: nat)
    requires n <= |Written(values)|
    ensures whole <= |values|
    ensures whole == |values| ==> cut == 0
    ensures whole < |values| ==> cut <= 2 * |values[whole]|
    ensures Written(values)[..n]
         == Written(values[..whole]) + (if whole < |values| then Line(values[whole])[..cut] else [])
  {
    if values == [] {
      whole, cut := 0, 0;
    } else if n <= 2 * |values[0]| {
      whole, cut := 0, n;
      assert Written(values)[..n] == Line(values[0])[..n];
    } else {
      var first := Line(values[0]);
      var w, c := LocateCut(values[1..], n - |first|);
      whole, cut := w + 1, c;
      assert Written(values)[..n] == first + Written(values[1..])[..n - |first|];
      assert values[..whole][1..] == values[1..][..w];
      assert values[..whole][0] == values[0];
    }
  }

  /** A truncated journal either fails to load or yields the fully written values followed by at
      most one truncated value; `whole` and `cut` say which, for every truncation. */
  lemma TornTail(values: seq<Bytes>, n: nat) returns (whole: nat, cut: nat)
    requires n <= |Written(values)|
    ensures whole <= |values| && (whole < |values| ==> cut <= 2 * |values[whole]|)
    ensures |Written(values[..whole])| <= n
    ensures whole < |values| ==> n < |Written(values[..whole + 1])|
    ensures Load(Written(values)[..n])
         == if whole == |values| then Some(values)
            else TornResult(values[..whole], values[whole], cut)
  {
    hide Load, HexEncode, HexDecode, TornResult;
    whole, cut := LocateCut(values, n);
    if whole == |values| {
      assert values[..whole] == values && Written(values) + [] == Written(values);
      JournalRoundTrip(values);
    } else {
      TornLine(values[..whole], values[whole], cut);
      assert values[..whole + 1] == values[..whole] + [values[whole]];
      WrittenSnoc(values[..whole], values[whole]);
    }
  }

  lemma {:induction false} DecodedLength(h: Bytes)
    ensures HexDecode(h).Some? ==> 2 * |HexDecode(h).value| == |h|
  {
    if |h| > 1 {
      DecodedLength(h[2..]);
    }
  }

  /** An append that follows a torn append of `u` lands on the torn line: the journal then fails to
      load, or holds one value that is a piece of `u` followed by `v`. */
  lemma GluedLine(values: seq<Bytes>, u: Bytes, written: nat, v: Bytes)
    requires written <= 2 * |u|
    ensures Load(Written(values) + Line(u)[..written] + Line(v))
         == if written % 2 == 1 then None else Some(values + [u[..written / 2] + v])
  {
    hide Load, HexEncode, HexDecode, Written;
    var line := HexEncode(u)[..written] + HexEncode(v);
    var file := line + [NEWLINE] + [];
    assert file == Line(u)[..written] + Line(v);
    assert Written(values) + file == Written(values) + Line(u)[..written] + Line(v);
    LoadPast(values, file);
    LastEntry(line);
    TornHex(u, written, v);
  }

  /** Whatever complete lines a journal holds, a line appended after a torn tail reads back as its
      value exactly when the lines before it load and there was no torn tail. */
  lemma AppendReadsBack(whole: Bytes, tail: Bytes, v: Bytes)
    requires Complete(whole)
    requires forall i | 0 <= i < |tail| :: tail[i] != NEWLINE && tail[i] != RETURN
    requires Load(whole).Some? ==> v !in Load(whole).value
    ensures var loaded := Load(whole + tail + Line(v));
            loaded.Some? && v in loaded.value <==> Load(whole).Some? && tail == []
  {
    hide Load, HexEncode, HexDecode, Complete;
    var line := tail + HexEncode(v);
    var last := line + [NEWLINE] + [];
    assert whole + tail + Line(v) == whole + last;
    LoadComplete(whole, last);
    LastEntry(line);
    DecodedLength(line);
    HexRoundTrip(v);
    assert tail == [] ==> line == HexEncode(v);
    if Load(whole).Some? && HexDecode(line).Some? {
      EntryAtEnd(Load(whole).value, HexDecode(line).value, v);
    }
  }

  lemma EntryAtEnd(values: seq<Bytes>, entry: Bytes, v: Bytes)
    ensures v in values + [entry] <==> v in values || v == entry
  {
    assert (values + [entry])[|values|] == entry;
  }

  lemma LastEntry(line: Bytes)
    requires forall i | 0 <= i < |line| :: line[i] != NEWLINE && line[i] != RETURN
    ensures Load(line + [NEWLINE] + []) == (match HexDecode(line) case Some(v) => Some([v]) case None => None)
  {
    FirstLine(line, []);
    assert Load([]) == Some([]);
    if HexDecode(line).Some? {
      assert [HexDecode(line).value] + [] == [HexDecode(line).value];
    }
  }
}
