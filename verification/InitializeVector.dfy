/** The vector of words the XML compiler sends to the kernel
    (src/lib/xml_compiler/src/xml_compiler+remapclasses_initialize_vector.cpp, the class in
    include/pqrs/xml_compiler/detail/remapclasses_initialize_vector.hpp) and the kernel's loader
    (src/core/kext/RemapClass.cpp:562-663).

    The first word counts the entries; each entry is a size word, a config index and a payload.  Whatever is started,
    pushed, inserted, abandoned and ended, the frozen vector is accepted by the kernel exactly within the kernel's
    limits, and the slot of each config index then holds that index's payload.
 */
module InitializeVector {
  import opened Wrappers
  import opened Sequences

  const MAX_CONFIG_COUNT: nat := 10000
  const MAX_ALLOCATION_COUNT: nat := 2097152

  datatype Entry = Entry(index: nat, payload: seq<nat>)

  // ---------------------------------------------------------------------------------------------
  // The format

  function EncodeOne(e: Entry): seq<nat> {
    [|e.payload| + 1, e.index] + e.payload
  }

  function Encode(es: seq<Entry>): seq<nat> {
    if es == [] then [] else EncodeOne(es[0]) + Encode(es[1..])
  }

  lemma {:induction false} EncodeAppend(es: seq<Entry>, e: Entry)
    ensures Encode(es + [e]) == Encode(es) + EncodeOne(e)
  {
    if es == [] {
      assert es + [e] == [e] && [e][1..] == [];
    } else {
      EncodeAppend(es[1..], e);
      assert (es + [e])[1..] == es[1..] + [e];
      SeqAssoc(EncodeOne(es[0]), Encode(es[1..]), EncodeOne(e));
    }
  }

  ghost function Indexes(es: seq<Entry>): set<nat> {
    if es == [] then {} else Indexes(es[..|es| - 1]) + {es[|es| - 1].index}
  }

  lemma {:induction false} IndexesAre(es: seq<Entry>)
    ensures forall k :: 0 <= k < |es| ==> es[k].index in Indexes(es)
    ensures forall i :: i in Indexes(es) ==> exists k :: 0 <= k < |es| && es[k].index == i
  {
    if es != [] {
      var n := |es| - 1;
      IndexesAre(es[..n]);
      forall i | i in Indexes(es) ensures exists k :: 0 <= k < |es| && es[k].index == i {
        if i in Indexes(es[..n]) {
          var k :| 0 <= k < n && es[..n][k].index == i;
          assert es[k].index == i;
        }
      }
    }
  }

  lemma {:induction false} IndexesAppend(a: seq<Entry>, b: seq<Entry>)
    ensures Indexes(a + b) == Indexes(a) + Indexes(b)
  {
    if b == [] {
      assert a + b == a;
    } else {
      assert (a + b)[..|a + b| - 1] == a + b[..|b| - 1];
      IndexesAppend(a, b[..|b| - 1]);
    }
  }

  ghost predicate Distinct(es: seq<Entry>) {
    es == [] || (Distinct(es[..|es| - 1]) && es[|es| - 1].index !in Indexes(es[..|es| - 1]))
  }

  // ---------------------------------------------------------------------------------------------
  // The kernel's loader

  /** Read `n` entries and put each payload into the slot of its index. */
  function Parse(rest: seq<nat>, n: nat, slots: seq<Option<seq<nat>>>): (r: Option<seq<Option<seq<nat>>>>)
    ensures r.Some? ==> |r.value| == |slots|
    decreases n
  {
    if n == 0 then Some(slots)
    else if rest == [] then None
    else
      var size := rest[0];
      if 1 + size > |rest| || size == 0 || rest[1] >= |slots| then None
      else Parse(rest[1 + size..], n - 1, slots[rest[1] := Some(rest[2..1 + size])])
  }

  function Empty(n: nat): (r: seq<Option<seq<nat>>>)
    ensures |r| == n
  {
    seq(n, _ => None)
  }

  function Values(slots: seq<Option<seq<nat>>>): (r: seq<seq<nat>>)
    requires AllSet(slots)
    ensures |r| == |slots| && forall i :: 0 <= i < |r| ==> r[i] == slots[i].value
  {
    seq(|slots|, i requires 0 <= i < |slots| => slots[i].value)
  }

  predicate AllSet(slots: seq<Option<seq<nat>>>) {
    forall i :: 0 <= i < |slots| ==> slots[i].Some?
  }

  /** The payloads by slot, or None if the vector is rejected. */
  function Loaded(data: seq<nat>): (r: Option<seq<seq<nat>>>) {
    if |data| < 2 || |data| > MAX_ALLOCATION_COUNT || data[0] > MAX_CONFIG_COUNT then None
    else
      var parsed := Parse(data[1..], data[0], Empty(data[0]));
      if parsed.None? || !AllSet(parsed.value) then None
      else Some(Values(parsed.value))
  }

  /** load_remapclasses_initialize_vector. */
  method Load(data: seq<nat>) returns (r: Option<seq<seq<nat>>>)
    ensures r == Loaded(data)
  {
    if |data| < 2 || |data| > MAX_ALLOCATION_COUNT {
      return None;
    }
    var p: nat, count := 1, data[0];
    if count > MAX_CONFIG_COUNT {
      return None;
    }
    var slots := Empty(count);
    for i := 0 to count
      invariant p <= |data| && |slots| == count
      invariant Parse(data[1..], count, Empty(count)) == Parse(data[p..], count - i, slots)
    {
      if p >= |data| {
        return None;
      }
      var size := data[p];
      if p + 1 + size > |data| || size == 0 {
        return None;
      }
      var index := data[p + 1];
      if index >= |slots| {
        return None;
      }
      assert data[p..][2..1 + size] == data[p + 2..p + 1 + size];
      assert data[p..][1 + size..] == data[p + 1 + size..];
      slots := slots[index := Some(data[p + 2..p + 1 + size])];
      p := p + 1 + size;
    }
    for i := 0 to |slots|
      invariant forall j :: 0 <= j < i ==> slots[j].Some?
    {
      if slots[i].None? {
        return None;
      }
    }
    r := Some(Values(slots));
  }

  // ---------------------------------------------------------------------------------------------
  // Parsing what was encoded

  function Fill(slots: seq<Option<seq<nat>>>, es: seq<Entry>): (r: seq<Option<seq<nat>>>)
    requires forall i :: 0 <= i < |es| ==> es[i].index < |slots|
    ensures |r| == |slots|
    decreases |es|
  {
    if es == [] then slots else Fill(slots[es[0].index := Some(es[0].payload)], es[1..])
  }

  lemma {:induction false} ParseEncode(es: seq<Entry>, slots: seq<Option<seq<nat>>>)
    requires forall i :: 0 <= i < |es| ==> es[i].index < |slots|
    ensures Parse(Encode(es), |es|, slots) == Some(Fill(slots, es))
    decreases |es|
  {
    if es != [] {
      var e, rest := es[0], Encode(es[1..]);
      var data := EncodeOne(e) + rest;
      assert data[|e.payload| + 2..] == rest;
      assert data[2..|e.payload| + 2] == e.payload;
      ParseEncode(es[1..], slots[e.index := Some(e.payload)]);
    }
  }

  /** The loader takes nothing but well-formed entries with indexes in range, and it takes each for what it says. */
  lemma {:induction false} ParsedIsEncoded(rest: seq<nat>, n: nat, slots: seq<Option<seq<nat>>>) returns (es: seq<Entry>)
    requires Parse(rest, n, slots).Some?
    ensures |es| == n && |Encode(es)| <= |rest| && rest[..|Encode(es)|] == Encode(es)
    ensures forall i :: 0 <= i < |es| ==> es[i].index < |slots|
    ensures Parse(rest, n, slots) == Some(Fill(slots, es))
    decreases n
  {
    es := [];
    if n > 0 {
      var size := rest[0];
      var e, tail := Entry(rest[1], rest[2..1 + size]), rest[1 + size..];
      var more := ParsedIsEncoded(tail, n - 1, slots[e.index := Some(e.payload)]);
      es := [e] + more;
      assert es[1..] == more;
      assert EncodeOne(e) == rest[..1 + size];
      assert rest == rest[..1 + size] + tail;
    }
  }

  /** Whatever the kernel accepts begins with a count and that many entries, which fill all slots. */
  lemma LoadedIsVector(data: seq<nat>) returns (es: seq<Entry>)
    requires Loaded(data).Some?
    ensures |Vector(es)| <= |data| <= MAX_ALLOCATION_COUNT && data[..|Vector(es)|] == Vector(es)
    ensures |es| <= MAX_CONFIG_COUNT && |Loaded(data).value| == |es|
    ensures forall i :: 0 <= i < |es| ==> es[i].index < |es|
    ensures forall i :: 0 <= i < |es| ==> Fill(Empty(|es|), es)[i] == Some(Loaded(data).value[i])
  {
    es := ParsedIsEncoded(data[1..], data[0], Empty(data[0]));
    assert data == [data[0]] + data[1..];
  }

  /** An entry in the vector, word by word: its size with the index, the index, and the payload. */
  lemma EntryAt(es: seq<Entry>, a: seq<Entry>, e: Entry, b: seq<Entry>, k: nat)
    requires es == a + [e] + b && k < |e.payload| + 2
    ensures var data, at := Vector(es), 1 + |Encode(a)|;
            data[0] == |es| && at + |e.payload| + 2 <= |data| &&
            data[at + k] == if k == 0 then |e.payload| + 1 else if k == 1 then e.index else e.payload[k - 2]
  {
    var head, all, tail := [|es|] + Encode(a), Vector(es), Encode(b);
    EncodeThree(es, a, e, b);
    VectorParts(|es|, Encode(a), EncodeOne(e), tail, Encode(es));
    EntryWords(head, e, tail, all, k);
  }

  lemma EncodeThree(es: seq<Entry>, a: seq<Entry>, e: Entry, b: seq<Entry>)
    requires es == a + [e] + b
    ensures Encode(es) == Encode(a) + EncodeOne(e) + Encode(b)
  {
    EncodeMore(a + [e], b);
    EncodeAppend(a, e);
  }

  lemma VectorParts(n: nat, a: seq<nat>, b: seq<nat>, c: seq<nat>, all: seq<nat>)
    requires all == a + b + c
    ensures [n] + all == [n] + a + b + c
  {
  }

  lemma EntryWords(head: seq<nat>, e: Entry, tail: seq<nat>, all: seq<nat>, k: nat)
    requires all == head + EncodeOne(e) + tail && k < |e.payload| + 2
    ensures |head| + |e.payload| + 2 <= |all|
    ensures all[|head| + k] == if k == 0 then |e.payload| + 1 else if k == 1 then e.index else e.payload[k - 2]
  {
    assert EncodeOne(e)[k] == if k == 0 then |e.payload| + 1 else if k == 1 then e.index else e.payload[k - 2];
  }

  lemma {:induction false} EncodeMore(a: seq<Entry>, b: seq<Entry>)
    ensures Encode(a + b) == Encode(a) + Encode(b)
  {
    if a == [] {
      assert a + b == b;
    } else {
      assert (a + b)[1..] == a[1..] + b;
      EncodeMore(a[1..], b);
      SeqAssoc(EncodeOne(a[0]), Encode(a[1..]), Encode(b));
    }
  }

  lemma {:induction false} DistinctRest(es: seq<Entry>)
    requires Distinct(es) && es != []
    ensures Distinct(es[1..]) && es[0].index !in Indexes(es[1..])
  {
    var n := |es| - 1;
    if n > 0 {
      DistinctRest(es[..n]);
      assert es[1..][..n - 1] == es[..n][1..];
      assert es[..n] == [es[0]] + es[..n][1..];
      IndexesAppend([es[0]], es[..n][1..]);
      assert [es[0]][..0] == [];
    }
  }

  lemma {:induction false} FillAt(slots: seq<Option<seq<nat>>>, es: seq<Entry>, i: nat)
    requires i < |slots| && Distinct(es) && forall i :: 0 <= i < |es| ==> es[i].index < |slots|
    ensures forall k :: 0 <= k < |es| && es[k].index == i ==> Fill(slots, es)[i] == Some(es[k].payload)
    ensures i !in Indexes(es) ==> Fill(slots, es)[i] == slots[i]
    decreases |es|
  {
    if es != [] {
      var slots', rest := slots[es[0].index := Some(es[0].payload)], es[1..];
      DistinctRest(es);
      FillAt(slots', rest, i);
      IndexesAre(rest);
      forall k | 0 <= k < |es| && es[k].index == i ensures Fill(slots, es)[i] == Some(es[k].payload) {
        if k > 0 {
          assert rest[k - 1] == es[k];
        }
      }
      assert es == [es[0]] + rest;
      IndexesAppend([es[0]], rest);
    }
  }

  // ---------------------------------------------------------------------------------------------
  // Freezing

  function Max(es: seq<Entry>): nat {
    if es == [] then 0
    else
      var n := |es| - 1;
      if es[n].index > Max(es[..n]) then es[n].index else Max(es[..n])
  }

  /** An empty entry for every index below `n` that has none. */
  function Gaps(added: set<nat>, n: nat): seq<Entry> {
    if n == 0 then []
    else if n - 1 in added then Gaps(added, n - 1)
    else Gaps(added, n - 1) + [Entry(n - 1, [])]
  }

  ghost function Frozen(es: seq<Entry>): seq<Entry> { es + Gaps(Indexes(es), Max(es)) }

  /** The vector of a list of entries. */
  function Vector(es: seq<Entry>): seq<nat> { [|es|] + Encode(es) }

  function PayloadOf(es: seq<Entry>, i: nat): seq<nat> {
    if es == [] then [] else if es[0].index == i then es[0].payload else PayloadOf(es[1..], i)
  }

  lemma {:induction false} PayloadAt(es: seq<Entry>, i: nat)
    ensures i !in Indexes(es) ==> PayloadOf(es, i) == []
    ensures i in Indexes(es) ==> exists k :: 0 <= k < |es| && es[k].index == i && PayloadOf(es, i) == es[k].payload
  {
    if es != [] {
      PayloadAt(es[1..], i);
      assert es == [es[0]] + es[1..];
      IndexesAppend([es[0]], es[1..]);
      assert [es[0]][..0] == [];
      if es[0].index != i && i in Indexes(es) {
        var k :| 0 <= k < |es[1..]| && es[1..][k].index == i && PayloadOf(es[1..], i) == es[1..][k].payload;
        assert es[k + 1] == es[1..][k];
      }
    }
  }

  lemma {:induction false} GapsAre(added: set<nat>, n: nat)
    ensures forall e :: e in Gaps(added, n) ==> e.index < n && e.index !in added && e.payload == []
    ensures forall i :: 0 <= i < n && i !in added ==> Entry(i, []) in Gaps(added, n)
  {
    if n > 0 {
      GapsAre(added, n - 1);
    }
  }

  lemma {:induction false} DistinctCount(es: seq<Entry>)
    requires Distinct(es)
    ensures |Indexes(es)| == |es|
  {
    if es != [] {
      var n := |es| - 1;
      DistinctCount(es[..n]);
    }
  }

  ghost function Below(n: nat): set<nat> {
    if n == 0 then {} else Below(n - 1) + {n - 1}
  }

  lemma {:induction false} BelowIs(n: nat)
    ensures |Below(n)| == n && forall i :: i in Below(n) <==> 0 <= i < n
  {
    if n > 0 {
      BelowIs(n - 1);
    }
  }

  lemma {:induction false} FrozenDistinct(es: seq<Entry>, n: nat)
    requires Distinct(es)
    ensures Distinct(es + Gaps(Indexes(es), n))
  {
    if n == 0 {
      assert es + [] == es;
    } else {
      FrozenDistinct(es, n - 1);
      var before := es + Gaps(Indexes(es), n - 1);
      GapOpen(es, n - 1);
      if n - 1 in Indexes(es) {
        assert es + Gaps(Indexes(es), n) == before;
      } else {
        DistinctAppend(before, Entry(n - 1, []));
        assert es + Gaps(Indexes(es), n) == before + [Entry(n - 1, [])];
      }
    }
  }

  lemma {:induction false} GapIndexes(added: set<nat>, n: nat)
    ensures Indexes(Gaps(added, n)) == Below(n) - added
  {
    if n > 0 {
      GapIndexes(added, n - 1);
      var before := Gaps(added, n - 1);
      assert (before + [Entry(n - 1, [])])[..|before|] == before;
    }
  }

  lemma {:induction false} MaxIn(es: seq<Entry>)
    ensures forall i :: i in Indexes(es) ==> i <= Max(es)
    ensures es != [] ==> Max(es) in Indexes(es)
  {
    if es != [] {
      MaxIn(es[..|es| - 1]);
    }
  }

  lemma BelowFilled(a: set<nat>, n: nat)
    requires n in a && forall i :: i in a ==> i <= n
    ensures a + (Below(n) - a) == Below(n + 1)
  {
    BelowIs(n);
  }

  lemma FrozenIndexes(es: seq<Entry>)
    requires es != []
    ensures Indexes(Frozen(es)) == Below(Max(es) + 1)
  {
    var a, m := Indexes(es), Max(es);
    calc {
      Indexes(es + Gaps(a, m));
      { IndexesAppend(es, Gaps(a, m)); }
      a + Indexes(Gaps(a, m));
      { GapIndexes(a, m); }
      a + (Below(m) - a);
      { MaxIn(es); BelowFilled(a, m); }
      Below(m + 1);
    }
  }

  /** Freezing completes the indexes: each from 0 to the largest exactly once. */
  lemma FrozenComplete(es: seq<Entry>)
    requires Distinct(es) && es != []
    ensures Indexes(Frozen(es)) == Below(Max(es) + 1) && |Frozen(es)| == Max(es) + 1
  {
    FrozenDistinct(es, Max(es));
    FrozenIndexes(es);
    CompleteCount(Frozen(es), Max(es) + 1);
  }

  lemma CompleteCount(es: seq<Entry>, n: nat)
    requires Distinct(es) && Indexes(es) == Below(n)
    ensures |es| == n
  {
    DistinctCount(es);
    BelowIs(n);
  }

  lemma GapAt(es: seq<Entry>, i: nat)
    requires es != [] && i <= Max(es) && i !in Indexes(es)
    ensures Entry(i, []) in Gaps(Indexes(es), Max(es))
  {
    MaxIn(es);
    GapsAre(Indexes(es), Max(es));
  }

  lemma FrozenPayload(es: seq<Entry>, i: nat)
    requires es != [] && i <= Max(es)
    ensures exists k :: 0 <= k < |Frozen(es)| && Frozen(es)[k] == Entry(i, PayloadOf(es, i))
  {
    PayloadAt(es, i);
    if i in Indexes(es) {
      var k :| 0 <= k < |es| && es[k].index == i && PayloadOf(es, i) == es[k].payload;
      assert Frozen(es)[k] == es[k];
    } else {
      GapAt(es, i);
      assert Entry(i, []) in Frozen(es);
    }
  }

  /** The payload of every index up to the largest. */
  function Table(es: seq<Entry>, n: nat): (r: seq<seq<nat>>)
    ensures |r| == n && forall i :: 0 <= i < n ==> r[i] == PayloadOf(es, i)
  {
    seq(n, i requires 0 <= i < n => PayloadOf(es, i))
  }

  lemma ParseFrozen(es: seq<Entry>, none: seq<Option<seq<nat>>>)
    requires Distinct(es) && es != [] && |none| == Max(es) + 1
    ensures |Frozen(es)| == Max(es) + 1
    ensures var parsed := Parse(Encode(Frozen(es)), Max(es) + 1, none);
            parsed.Some? && forall i :: 0 <= i <= Max(es) ==> parsed.value[i] == Some(PayloadOf(es, i))
  {
    var frozen, n := Frozen(es), Max(es) + 1;
    FrozenComplete(es);
    FrozenDistinct(es, Max(es));
    IndexesAre(frozen);
    BelowIs(n);
    ParseEncode(frozen, none);
    forall i | 0 <= i < n ensures Fill(none, frozen)[i] == Some(PayloadOf(es, i)) {
      FillAt(none, frozen, i);
      FrozenPayload(es, i);
    }
  }

  lemma ParsedTable(es: seq<Entry>)
    requires Distinct(es) && es != []
    ensures |Frozen(es)| == Max(es) + 1
    ensures var parsed := Parse(Encode(Frozen(es)), Max(es) + 1, Empty(Max(es) + 1));
            parsed.Some? && AllSet(parsed.value) && Values(parsed.value) == Table(es, Max(es) + 1)
  {
    ParseFrozen(es, Empty(Max(es) + 1));
    var parsed := Parse(Encode(Frozen(es)), Max(es) + 1, Empty(Max(es) + 1)).value;
    assert forall i :: 0 <= i < |parsed| ==> parsed[i] == Some(PayloadOf(es, i));
  }

  /** The kernel's slots for these entries; None if there are none or too many, or if the vector is too long. */
  ghost function Delivered(es: seq<Entry>): Option<seq<seq<nat>>> {
    if es != [] && Max(es) < MAX_CONFIG_COUNT && |Vector(Frozen(es))| <= MAX_ALLOCATION_COUNT
    then Some(Table(es, Max(es) + 1)) else None
  }

  /** What the kernel makes of the frozen vector of any completed entries with distinct indexes. */
  lemma FramingRoundTrip(es: seq<Entry>)
    requires Distinct(es)
    ensures Loaded(Vector(Frozen(es))) == Delivered(es)
  {
    var frozen := Frozen(es);
    assert Vector(frozen)[1..] == Encode(frozen);
    if es != [] {
      ParsedTable(es);
      assert |Encode(frozen)| >= 1;
    }
  }

  function PayloadWords(es: seq<Entry>): nat {
    if es == [] then 0 else |es[0].payload| + PayloadWords(es[1..])
  }

  lemma {:induction false} EncodeLength(es: seq<Entry>)
    ensures |Encode(es)| == PayloadWords(es) + 2 * |es|
  {
    if es != [] {
      EncodeLength(es[1..]);
    }
  }

  /** The class constructor refuses a payload when all payloads read so far together exceed the limit.  Within an
      accepted vector that never happens, however many entries have been read. */
  lemma AllocationFits(es: seq<Entry>, n: nat)
    requires n <= |es| && |Vector(es)| <= MAX_ALLOCATION_COUNT
    ensures PayloadWords(es[..n]) <= MAX_ALLOCATION_COUNT
  {
    EncodeLength(es);
    PayloadPrefix(es, n);
  }

  lemma {:induction false} PayloadPrefix(es: seq<Entry>, n: nat)
    requires n <= |es|
    ensures PayloadWords(es[..n]) <= PayloadWords(es)
  {
    if n > 0 {
      PayloadPrefix(es[1..], n - 1);
      assert es[..n][1..] == es[1..][..n - 1];
    }
  }

  // ---------------------------------------------------------------------------------------------
  // The compiler's side

  /** What has been completed and what is being written. */
  datatype Work = Work(completed: seq<Entry>, current: Option<Entry>)

  datatype Step =
    | Start(index: nat)
    | PushBack(word: nat)
    | Insert(at: nat, word: nat)   // `at` counts from the start of the payload
    | Update(at: nat, word: nat)
    | End

  function InsertAt(s: seq<nat>, k: nat, v: nat): seq<nat>
    requires k <= |s|
  {
    s[..k] + [v] + s[k..]
  }

  /** A step that does not apply (an index already completed, nothing being written) changes nothing. */
  ghost function Do(w: Work, step: Step): Work {
    match step
    case Start(i) => if i in Indexes(w.completed) then w else w.(current := Some(Entry(i, [])))
    case PushBack(v) =>
      if w.current.None? then w else w.(current := Some(Entry(w.current.value.index, w.current.value.payload + [v])))
    case Insert(k, v) =>
      if w.current.None? || k > |w.current.value.payload| then w
      else w.(current := Some(Entry(w.current.value.index, InsertAt(w.current.value.payload, k, v))))
    case Update(k, v) =>
      if w.current.None? || k >= |w.current.value.payload| then w
      else w.(current := Some(Entry(w.current.value.index, w.current.value.payload[k := v])))
    case End => if w.current.None? then w else Work(w.completed + [w.current.value], None)
  }

  ghost function After(script: seq<Step>, n: nat): Work
    requires n <= |script|
  {
    if n == 0 then Work([], None) else Do(After(script, n - 1), script[n - 1])
  }

  /** The words for what has been written so far. */
  ghost function Words(w: Work): seq<nat> {
    if w.current.None? then Vector(w.completed) else Vector(w.completed) + EncodeOne(w.current.value)
  }

  lemma WordsPush(prefix: seq<nat>, e: Entry, v: nat)
    ensures (prefix + EncodeOne(e))[|prefix| := |e.payload| + 2] + [v] == prefix + EncodeOne(Entry(e.index, e.payload + [v]))
  {
  }

  lemma WordsInsert(prefix: seq<nat>, e: Entry, k: nat, v: nat)
    requires k <= |e.payload|
    ensures InsertAt((prefix + EncodeOne(e))[|prefix| := |e.payload| + 2], |prefix| + 2 + k, v) ==
            prefix + EncodeOne(Entry(e.index, InsertAt(e.payload, k, v)))
  {
    var counted := [|e.payload| + 2, e.index] + e.payload;
    assert (prefix + EncodeOne(e))[|prefix| := |e.payload| + 2] == prefix + counted;
    assert (prefix + counted)[..|prefix| + 2 + k] == prefix + [|e.payload| + 2, e.index] + e.payload[..k];
    assert (prefix + counted)[|prefix| + 2 + k..] == e.payload[k..];
  }

  lemma WordsUpdate(prefix: seq<nat>, e: Entry, k: nat, v: nat)
    requires k < |e.payload|
    ensures (prefix + EncodeOne(e))[|prefix| + 2 + k := v] == prefix + EncodeOne(Entry(e.index, e.payload[k := v]))
  {
  }

  lemma WordsEnd(es: seq<Entry>, e: Entry)
    ensures (Vector(es) + EncodeOne(e))[0 := |es| + 1] == Vector(es + [e])
  {
    EncodeAppend(es, e);
  }

  lemma DistinctAppend(es: seq<Entry>, e: Entry)
    requires Distinct(es) && e.index !in Indexes(es)
    ensures Distinct(es + [e]) && Indexes(es + [e]) == Indexes(es) + {e.index}
    ensures Max(es + [e]) == if e.index > Max(es) then e.index else Max(es)
  {
    assert (es + [e])[..|es|] == es;
  }

  /** While gaps are filled, an index still needs an entry exactly when it had none in the beginning. */
  lemma GapOpen(es: seq<Entry>, i: nat)
    ensures i in Indexes(es + Gaps(Indexes(es), i)) <==> i in Indexes(es)
    ensures es + Gaps(Indexes(es), i + 1) ==
            if i in Indexes(es) then es + Gaps(Indexes(es), i) else es + Gaps(Indexes(es), i) + [Entry(i, [])]
  {
    GapIndexes(Indexes(es), i);
    IndexesAppend(es, Gaps(Indexes(es), i));
    BelowIs(i);
    SeqAssoc(es, Gaps(Indexes(es), i), [Entry(i, [])]);
  }

  class RemapClassesInitializeVector {
    var data: seq<nat>
    var added: set<nat>
    var maxIndex: nat
    var frozen: bool
    var startIndex: nat
    var ended: bool
    ghost var work: Work

    ghost predicate Valid()
      reads this
    {
      data == Words(work) && ended == work.current.None? &&
      Distinct(work.completed) && added == Indexes(work.completed) && maxIndex == Max(work.completed) &&
      (work.current.Some? ==> startIndex == |Vector(work.completed)| && work.current.value.index !in added)
    }

    constructor ()
      ensures Valid() && !frozen && work == Work([], None)
    {
      data, added, maxIndex, frozen, startIndex, ended := [0], {}, 0, false, 0, true;
      work := Work([], None);
    }

    /** False stands for the error "Duplicated identifier". */
    method Start(index: nat) returns (ok: bool)
      requires Valid() && !frozen
      modifies this
      ensures Valid() && !frozen && work == Do(old(work), Step.Start(index))
      ensures ok <==> index !in Indexes(old(work).completed)
      ensures work == if ok then Work(old(work).completed, Some(Entry(index, []))) else old(work)
      ensures maxIndex == old(maxIndex)
    {
      if index in added {
        return false;
      }
      if !ended {
        Cleanup();
      }
      startIndex := |data|;
      ended := false;
      data := data + [1];
      data := data + [index];
      work := work.(current := Some(Entry(index, [])));
      assert data == Vector(work.completed) + EncodeOne(Entry(index, []));
      ok := true;
    }

    method Cleanup()
      requires Valid()
      modifies this`data, this`ended, this`work
      ensures Valid() && work == Work(old(work).completed, None)
    {
      if ended {
        return;
      }
      data := data[..startIndex];
      ended := true;
      work := Work(work.completed, None);
    }

    method PushBack(v: nat)
      requires Valid() && work.current.Some?
      modifies this`data, this`work
      ensures Valid() && work == Do(old(work), Step.PushBack(v))
    {
      WordsPush(Vector(work.completed), work.current.value, v);
      data := data[startIndex := data[startIndex] + 1];
      data := data + [v];
      work := Do(work, Step.PushBack(v));
    }

    method Insert(index: nat, v: nat)
      requires Valid() && work.current.Some? && startIndex + 2 <= index <= |data|
      modifies this`data, this`work
      ensures Valid() && work == Do(old(work), Step.Insert(index - startIndex - 2, v))
    {
      WordsInsert(Vector(work.completed), work.current.value, index - startIndex - 2, v);
      data := data[startIndex := data[startIndex] + 1];
      data := InsertAt(data, index, v);
      work := Do(work, Step.Insert(index - startIndex - 2, v));
    }

    method Update(index: nat, v: nat)
      requires Valid() && work.current.Some? && startIndex + 2 <= index < |data|
      modifies this`data, this`work
      ensures Valid() && work == Do(old(work), Step.Update(index - startIndex - 2, v))
    {
      WordsUpdate(Vector(work.completed), work.current.value, index - startIndex - 2, v);
      data := data[index := v];
      work := Do(work, Step.Update(index - startIndex - 2, v));
    }

    method End()
      requires Valid() && work.current.Some?
      modifies this
      ensures Valid() && frozen == old(frozen) && work == Do(old(work), Step.End)
      ensures work == Work(old(work).completed + [old(work).current.value], None)
      ensures maxIndex == if old(work).current.value.index > old(maxIndex) then old(work).current.value.index else old(maxIndex)
    {
      ghost var es, e := work.completed, work.current.value;
      ghost var all := es + [e];
      WordsEnd(es, e);
      DistinctAppend(es, e);
      ended := true;
      data := data[0 := data[0] + 1];
      assert data == Vector(all);
      var index := data[startIndex + 1];
      if index > maxIndex {
        maxIndex := index;
      }
      added := added + {index};
      work := Work(all, None);
    }

    method AddEmpty(i: nat)
      requires Valid() && !frozen && i !in added && i <= maxIndex && work.current.None?
      modifies this
      ensures Valid() && !frozen && maxIndex == old(maxIndex)
      ensures work == Work(old(work).completed + [Entry(i, [])], None)
    {
      var ok := Start(i);
      End();
    }

    /** The entry being written is dropped, and missing indexes get empty entries. */
    method Freeze()
      requires Valid() && !frozen
      modifies this
      ensures Valid() && frozen && work == Work(Frozen(old(work).completed), None)
      ensures data == Vector(Frozen(old(work).completed))
    {
      Cleanup();
      ghost var es := work.completed;
      var max := maxIndex;
      for i := 0 to max
        invariant Valid() && !frozen && max == maxIndex
        invariant work == Work(es + Gaps(Indexes(es), i), None)
      {
        GapOpen(es, i);
        if i !in added {
          AddEmpty(i);
        }
      }
      frozen := true;
    }
  }

  /** Whatever the compiler does, the kernel gets the completed entries, each payload in its slot. */
  method CompileAndLoad(script: seq<Step>) returns (r: Option<seq<seq<nat>>>)
    ensures r == Delivered(After(script, |script|).completed)
  {
    var data := Compile(script);
    FramingRoundTrip(After(script, |script|).completed);
    r := Load(data);
  }

  method Compile(script: seq<Step>) returns (data: seq<nat>)
    ensures Distinct(After(script, |script|).completed)
    ensures data == Vector(Frozen(After(script, |script|).completed))
  {
    var v := new RemapClassesInitializeVector();
    for i := 0 to |script|
      invariant v.Valid() && !v.frozen && v.work == After(script, i)
    {
      Apply(v, script[i]);
    }
    v.Freeze();
    data := v.data;
  }

  method Apply(v: RemapClassesInitializeVector, step: Step)
    requires v.Valid() && !v.frozen
    modifies v
    ensures v.Valid() && !v.frozen && v.work == Do(old(v.work), step)
  {
    match step
    case Start(index) => var ok := v.Start(index);
    case PushBack(word) =>
      if !v.ended {
        v.PushBack(word);
      }
    case Insert(at, word) =>
      if !v.ended && v.startIndex + 2 + at <= |v.data| {
        v.Insert(v.startIndex + 2 + at, word);
      }
    case Update(at, word) =>
      if !v.ended && v.startIndex + 2 + at < |v.data| {
        v.Update(v.startIndex + 2 + at, word);
      }
    case End =>
      if !v.ended {
        v.End();
      }
  }
}
