/** The records inside a payload: a remap record for every autogen, followed by its filter records
    (src/lib/xml_compiler/src/xml_compiler+remapclasses_initialize_vector_loader.cpp:374-437,
    src/lib/xml_compiler/src/xml_compiler+filter_vector.cpp:81-207), and the kernel's reading of them
    (src/core/kext/RemapClass.cpp:245-364, src/core/kext/RemapFunc/RemapFuncFactory.hpp:120-131).

    The kernel recovers every autogen with its arguments in order and with its own filters.
 */
module Records {
  import opened Wrappers
  import opened Sequences
  import opened InitializeVector

  // src/bridge/include/bridge.h
  const DATATYPE_NONE: nat := 0
  const DATATYPE_MODIFIERFLAG: nat := 2
  const DATATYPE_MODIFIERFLAGS_END: nat := 3
  const DATATYPE_OPTION: nat := 12
  const REMAPTYPE_NONE: nat := 19
  const REMAPTYPE_END: nat := 41
  const FILTERTYPE_NONE: nat := 42
  const FILTERTYPE_END: nat := 73
  const STATUSMESSAGE: nat := 80
  const MODIFIERNAME: nat := 81
  const VK_MODIFIER: nat := 82
  const VK_CONFIG: nat := 83
  const VK_CHANGE_INPUTSOURCE: nat := 84
  const VK_OPEN_URL: nat := 85

  /** The numbers of the options that matter here; the symbol table assigns them. */
  datatype Options = Options(separator: nat, useSeparator: nat, ignorePassThrough: nat)

  datatype Pair = Pair(kind: nat, value: nat)

  /** What stands between two commas: values connected by bars. */
  type Arg = seq<Pair>

  // ---------------------------------------------------------------------------------------------
  // Pairs as words

  function Flat(ps: seq<Pair>): seq<nat> {
    if ps == [] then [] else Flat(ps[..|ps| - 1]) + [ps[|ps| - 1].kind, ps[|ps| - 1].value]
  }

  lemma {:induction false} FlatAppend(a: seq<Pair>, b: seq<Pair>)
    ensures Flat(a + b) == Flat(a) + Flat(b)
  {
    if b == [] {
      assert a + b == a;
    } else {
      assert (a + b)[..|a + b| - 1] == a + b[..|b| - 1];
      FlatAppend(a, b[..|b| - 1]);
    }
  }

  lemma FlatOne(p: Pair)
    ensures Flat([p]) == [p.kind, p.value]
  {
    assert [p][..0] == [];
  }

  lemma {:induction false} FlatLength(ps: seq<Pair>)
    ensures |Flat(ps)| == 2 * |ps|
  {
    if ps != [] {
      FlatLength(ps[..|ps| - 1]);
    }
  }

  lemma {:induction false} FlatAt(ps: seq<Pair>, i: nat)
    requires i < |ps|
    ensures |Flat(ps)| == 2 * |ps| && Flat(ps)[2 * i] == ps[i].kind && Flat(ps)[2 * i + 1] == ps[i].value
  {
    FlatLength(ps);
    var n := |ps| - 1;
    FlatLength(ps[..n]);
    if i < n {
      FlatAt(ps[..n], i);
    }
  }

  // ---------------------------------------------------------------------------------------------
  // What the compiler writes for one autogen

  /** Every symbol is known, and only modifiers are connected by bars. */
  predicate ArgOk(arg: Arg) {
    forall i :: 0 <= i < |arg| ==> arg[i].kind != DATATYPE_NONE && (i > 0 ==> arg[i].kind == DATATYPE_MODIFIERFLAG)
  }

  /** A group of modifiers is closed by an end marker. */
  function ArgPairs(arg: Arg): seq<Pair> {
    if arg != [] && arg[|arg| - 1].kind == DATATYPE_MODIFIERFLAG then arg + [Pair(DATATYPE_MODIFIERFLAGS_END, 1)] else arg
  }

  function AllPairs(args: seq<Arg>, n: nat): seq<Pair>
    requires n <= |args|
  {
    if n == 0 then [] else AllPairs(args, n - 1) + ArgPairs(args[n - 1])
  }

  /** The arguments stand in the record in their order; one that ends in a modifier is closed by an end marker. */
  lemma ArgumentAt(args: seq<Arg>, n: nat, i: nat)
    requires i < n <= |args| && args[i] != []
    ensures var upTo, all := AllPairs(args, i + 1), AllPairs(args, n);
            |upTo| <= |all| && all[..|upTo|] == upTo &&
            upTo == AllPairs(args, i) + args[i] +
                    if args[i][|args[i]| - 1].kind == DATATYPE_MODIFIERFLAG then [Pair(DATATYPE_MODIFIERFLAGS_END, 1)] else []
  {
    AllPairsPrefix(args, i + 1, n);
    SeqAssoc(AllPairs(args, i), args[i], [Pair(DATATYPE_MODIFIERFLAGS_END, 1)]);
  }

  lemma {:induction false} AllPairsPrefix(args: seq<Arg>, m: nat, n: nat)
    requires m <= n <= |args|
    ensures |AllPairs(args, m)| <= |AllPairs(args, n)| && AllPairs(args, n)[..|AllPairs(args, m)|] == AllPairs(args, m)
    decreases n - m
  {
    if m < n {
      AllPairsPrefix(args, m, n - 1);
      var a, b := AllPairs(args, m), AllPairs(args, n - 1);
      assert AllPairs(args, n)[..|a|] == b[..|a|];
    }
  }

  function Separators(o: Options, ps: seq<Pair>): nat {
    if ps == [] then 0
    else Separators(o, ps[..|ps| - 1]) + if ps[|ps| - 1] == Pair(DATATYPE_OPTION, o.separator) then 1 else 0
  }

  /** One pair in front for every separator. */
  function Unshifted(o: Options, n: nat): seq<Pair> {
    if n == 0 then [] else [Pair(DATATYPE_OPTION, o.useSeparator)] + Unshifted(o, n - 1)
  }

  function RecordPairs(o: Options, ps: seq<Pair>): seq<Pair> { Unshifted(o, Separators(o, ps)) + ps }

  function RecordWords(remapType: nat, ps: seq<Pair>): seq<nat> { [1 + 2 * |ps|, remapType] + Flat(ps) }

  /** A remap record word by word: the number of words that follow, the type, then data type and value of each pair. */
  lemma RecordAt(remapType: nat, ps: seq<Pair>, i: nat)
    requires i < |ps|
    ensures var words := RecordWords(remapType, ps);
            |words| == 2 + 2 * |ps| && words[0] == |words| - 1 && words[1] == remapType &&
            words[2 + 2 * i] == ps[i].kind && words[3 + 2 * i] == ps[i].value
  {
    FlatAt(ps, i);
  }

  /** In front of the pairs stands one USE_SEPARATOR for every SEPARATOR among them. */
  lemma RecordPairsAt(o: Options, ps: seq<Pair>, i: nat)
    requires i < |RecordPairs(o, ps)|
    ensures var n := multiset(ps)[Pair(DATATYPE_OPTION, o.separator)];
            |RecordPairs(o, ps)| == n + |ps| &&
            RecordPairs(o, ps)[i] == if i < n then Pair(DATATYPE_OPTION, o.useSeparator) else ps[i - n]
  {
    SeparatorsCount(o, ps);
    UnshiftedLength(o, Separators(o, ps));
    UnshiftedAt(o, Separators(o, ps));
  }

  lemma {:induction false} SeparatorsCount(o: Options, ps: seq<Pair>)
    ensures Separators(o, ps) == multiset(ps)[Pair(DATATYPE_OPTION, o.separator)]
  {
    if ps != [] {
      var n := |ps| - 1;
      SeparatorsCount(o, ps[..n]);
      assert ps == ps[..n] + [ps[n]];
    }
  }

  lemma {:induction false} UnshiftedAt(o: Options, n: nat)
    ensures forall i :: 0 <= i < |Unshifted(o, n)| ==> Unshifted(o, n)[i] == Pair(DATATYPE_OPTION, o.useSeparator)
  {
    if n > 0 {
      UnshiftedAt(o, n - 1);
    }
  }

  lemma {:induction false} UnshiftedLength(o: Options, n: nat)
    ensures |Unshifted(o, n)| == n
  {
    if n > 0 {
      UnshiftedLength(o, n - 1);
    }
  }

  lemma SeparatorsAppend(o: Options, ps: seq<Pair>, p: Pair)
    ensures Separators(o, ps + [p]) == Separators(o, ps) + if p == Pair(DATATYPE_OPTION, o.separator) then 1 else 0
  {
    assert (ps + [p])[..|ps|] == ps;
  }

  /** The words of the pairs of a record grow at the end, and for a separator also in front. */
  lemma RecordFlatMore(o: Options, ps: seq<Pair>, p: Pair)
    ensures var words := Flat(RecordPairs(o, ps)) + [p.kind, p.value];
            Flat(RecordPairs(o, ps + [p])) ==
            if p == Pair(DATATYPE_OPTION, o.separator) then [DATATYPE_OPTION, o.useSeparator] + words else words
  {
    SeparatorsAppend(o, ps, p);
    var n, use := Separators(o, ps), Pair(DATATYPE_OPTION, o.useSeparator);
    var pairs := RecordPairs(o, ps);
    FlatAppend(pairs, [p]);
    FlatOne(p);
    SeqAssoc(Unshifted(o, n), ps, [p]);
    if p == Pair(DATATYPE_OPTION, o.separator) {
      FlatAppend([use], pairs + [p]);
      FlatOne(use);
      SeqAssoc([use], Unshifted(o, n), ps + [p]);
    }
  }

  // ---------------------------------------------------------------------------------------------
  // The kernel's reading

  /** A processor's words and those of its filters. */
  datatype KernelItem = KernelItem(vec: seq<nat>, filters: seq<seq<nat>>)

  predicate IsRemap(t: nat) { REMAPTYPE_NONE < t < REMAPTYPE_END }
  predicate IsFilter(t: nat) { FILTERTYPE_NONE < t < FILTERTYPE_END }

  /** Records that make no item, with the sizes the kernel wants. */
  predicate OtherOk(t: nat, size: nat) {
    t == STATUSMESSAGE || (t == MODIFIERNAME && size >= 3) || (t == VK_MODIFIER && size == 12) ||
    (t == VK_CONFIG && size == 5) || ((t == VK_CHANGE_INPUTSOURCE || t == VK_OPEN_URL) && size == 2)
  }

  function AddFilter(items: seq<KernelItem>, vec: seq<nat>): seq<KernelItem>
    requires items != []
  {
    var n := |items| - 1;
    items[n := items[n].(filters := items[n].filters + [vec])]
  }

  /** The items of a payload; reading stops at the first malformed record. */
  function ParseItems(words: seq<nat>, items: seq<KernelItem>): seq<KernelItem>
    decreases |words|
  {
    if words == [] then items
    else
      var size, rest := words[0], words[1..];
      if size > |rest| then items
      else if size == 0 then ParseItems(rest, items)
      else
        var vec, tail := rest[..size], rest[size..];
        if IsRemap(vec[0]) then ParseItems(tail, items + [KernelItem(vec, [])])
        else if IsFilter(vec[0]) then (if items == [] then items else ParseItems(tail, AddFilter(items, vec)))
        else if OtherOk(vec[0], size) then ParseItems(tail, items)
        else items
  }

  /** The loop of the RemapClass constructor. */
  method ReadItems(words: seq<nat>) returns (items: seq<KernelItem>)
    ensures items == ParseItems(words, [])
  {
    items := [];
    var p: nat := 0;
    while p < |words|
      invariant p <= |words|
      invariant ParseItems(words, []) == ParseItems(words[p..], items)
      decreases |words| - p
    {
      var size := words[p];
      p := p + 1;
      if p + size > |words| {
        return;
      }
      assert words[p - 1..][1..] == words[p..];
      if size > 0 {
        var vec := words[p..p + size];
        assert words[p..][..size] == vec && words[p..][size..] == words[p + size..];
        if IsRemap(vec[0]) {
          items := items + [KernelItem(vec, [])];
        } else if IsFilter(vec[0]) {
          if |items| == 0 {
            return;
          }
          items := AddFilter(items, vec);
        } else if !OtherOk(vec[0], size) {
          return;
        }
        p := p + size;
      }
    }
  }

  /** One autogen as written: its pairs and its filters, each filter starting with its type. */
  datatype Autogen = Autogen(remapType: nat, pairs: seq<Pair>, filters: seq<seq<nat>>)
  {
    function Vec(): seq<nat> { [remapType] + Flat(pairs) }
    function Item(): KernelItem { KernelItem(Vec(), filters) }
    predicate Ok() {
      IsRemap(remapType) && forall i :: 0 <= i < |filters| ==> filters[i] != [] && IsFilter(filters[i][0])
    }
  }

  function FilterWords(filters: seq<seq<nat>>): seq<nat> {
    if filters == [] then [] else [|filters[0]|] + filters[0] + FilterWords(filters[1..])
  }

  function AutogenWords(a: Autogen): seq<nat> { RecordWords(a.remapType, a.pairs) + FilterWords(a.filters) }

  function PayloadWordsOf(gs: seq<Autogen>): seq<nat> {
    if gs == [] then [] else AutogenWords(gs[0]) + PayloadWordsOf(gs[1..])
  }

  function Items(gs: seq<Autogen>): seq<KernelItem> {
    if gs == [] then [] else [gs[0].Item()] + Items(gs[1..])
  }

  lemma {:induction false} ParseFilters(filters: seq<seq<nat>>, tail: seq<nat>, items: seq<KernelItem>, vec: seq<nat>, done: seq<seq<nat>>)
    requires forall i :: 0 <= i < |filters| ==> filters[i] != [] && IsFilter(filters[i][0])
    ensures ParseItems(FilterWords(filters) + tail, items + [KernelItem(vec, done)]) ==
            ParseItems(tail, items + [KernelItem(vec, done + filters)])
    decreases |filters|
  {
    if filters == [] {
      assert FilterWords(filters) + tail == tail;
      assert done + filters == done;
    } else {
      var f, rest := filters[0], FilterWords(filters[1..]) + tail;
      assert FilterWords(filters) + tail == [|f|] + f + rest;
      ParseFilter(f, rest, items, vec, done);
      ParseFilters(filters[1..], tail, items, vec, done + [f]);
      assert done + [f] + filters[1..] == done + filters;
    }
  }

  lemma ParseFilter(f: seq<nat>, rest: seq<nat>, items: seq<KernelItem>, vec: seq<nat>, done: seq<seq<nat>>)
    requires f != [] && IsFilter(f[0])
    ensures ParseItems([|f|] + f + rest, items + [KernelItem(vec, done)]) ==
            ParseItems(rest, items + [KernelItem(vec, done + [f])])
  {
    var words := [|f|] + f + rest;
    assert words[1..] == f + rest;
    assert (f + rest)[..|f|] == f && (f + rest)[|f|..] == rest;
    assert AddFilter(items + [KernelItem(vec, done)], f) == items + [KernelItem(vec, done + [f])];
  }

  lemma ParseAutogen(a: Autogen, tail: seq<nat>, items: seq<KernelItem>)
    requires a.Ok()
    ensures ParseItems(AutogenWords(a) + tail, items) == ParseItems(tail, items + [a.Item()])
  {
    FlatLength(a.pairs);
    var vec, rest := a.Vec(), FilterWords(a.filters) + tail;
    var words := AutogenWords(a) + tail;
    assert words[0] == |vec| && words[1..] == vec + rest;
    assert (vec + rest)[..|vec|] == vec && (vec + rest)[|vec|..] == rest;
    ParseFilters(a.filters, tail, items, vec, []);
    assert [] + a.filters == a.filters;
  }

  /** The kernel reads back every autogen, in order, each with exactly its own filters. */
  lemma {:induction false} RecordsRoundTrip(gs: seq<Autogen>, items: seq<KernelItem>)
    requires forall i :: 0 <= i < |gs| ==> gs[i].Ok()
    ensures ParseItems(PayloadWordsOf(gs), items) == items + Items(gs)
    decreases |gs|
  {
    if gs == [] {
      assert items + Items(gs) == items;
    } else {
      ParseAutogen(gs[0], PayloadWordsOf(gs[1..]), items);
      RecordsRoundTrip(gs[1..], items + [gs[0].Item()]);
      SeqAssoc(items, [gs[0].Item()], Items(gs[1..]));
    }
  }

  // ---------------------------------------------------------------------------------------------
  // The pair reader

  function PairsFrom(vec: seq<nat>, i: nat): seq<Pair>
    decreases |vec| - i
  {
    if i + 1 >= |vec| then [] else [Pair(vec[i], vec[i + 1])] + PairsFrom(vec, i + 2)
  }

  /** The pairs a processor is given: all except the option to ignore pass-through mode. */
  function Added(o: Options, ps: seq<Pair>): seq<Pair> {
    if ps == [] then []
    else if ps[0] == Pair(DATATYPE_OPTION, o.ignorePassThrough) then Added(o, ps[1..])
    else [ps[0]] + Added(o, ps[1..])
  }

  method Create(o: Options, vec: seq<nat>) returns (added: seq<Pair>, ignorePassThrough: bool)
    ensures added == Added(o, PairsFrom(vec, 1))
    ensures ignorePassThrough <==> Pair(DATATYPE_OPTION, o.ignorePassThrough) in PairsFrom(vec, 1)
  {
    added, ignorePassThrough := [], false;
    var i: nat := 1;
    ghost var rest := PairsFrom(vec, 1);
    while i + 1 < |vec|
      invariant rest == PairsFrom(vec, i)
      invariant Added(o, PairsFrom(vec, 1)) == added + Added(o, rest)
      invariant Pair(DATATYPE_OPTION, o.ignorePassThrough) in PairsFrom(vec, 1) <==>
                ignorePassThrough || Pair(DATATYPE_OPTION, o.ignorePassThrough) in rest
      decreases |vec| - i
    {
      var p := Pair(vec[i], vec[i + 1]);
      AddedFirst(o, p, PairsFrom(vec, i + 2));
      if p == Pair(DATATYPE_OPTION, o.ignorePassThrough) {
        ignorePassThrough := true;
      } else {
        added := added + [p];
      }
      i := i + 2;
      rest := PairsFrom(vec, i);
    }
  }

  lemma AddedFirst(o: Options, p: Pair, rest: seq<Pair>)
    ensures Added(o, [p] + rest) ==
            if p == Pair(DATATYPE_OPTION, o.ignorePassThrough) then Added(o, rest) else [p] + Added(o, rest)
  {
    assert ([p] + rest)[1..] == rest;
  }

  /** The reader recovers the pairs that were flattened. */
  lemma {:induction false} PairsRoundTrip(prefix: seq<nat>, ps: seq<Pair>)
    ensures PairsFrom(prefix + Flat(ps), |prefix|) == ps
    decreases |ps|
  {
    if ps != [] {
      var p, rest := ps[0], ps[1..];
      assert ps == [p] + rest;
      FlatAppend([p], rest);
      FlatOne(p);
      PairsRoundTrip(prefix + [p.kind, p.value], rest);
      assert prefix + Flat(ps) == prefix + [p.kind, p.value] + Flat(rest);
    }
  }

  // ---------------------------------------------------------------------------------------------
  // Writing one autogen

  /** The payload being written. */
  ghost function Open(v: RemapClassesInitializeVector): seq<nat>
    reads v
  {
    if v.work.current.Some? then v.work.current.value.payload else []
  }

  /** The same work with another payload being written. */
  ghost function Writing(w: Work, payload: seq<nat>): Work {
    if w.current.Some? then w.(current := Some(Entry(w.current.value.index, payload))) else w
  }

  lemma InsertTwice(pre: seq<nat>, body: seq<nat>, a: nat, b: nat)
    ensures InsertAt(InsertAt(pre + body, |pre|, b), |pre|, a) == pre + ([a, b] + body)
  {
    assert InsertAt(pre + body, |pre|, b) == pre + ([b] + body);
    assert InsertAt(pre + ([b] + body), |pre|, a) == pre + ([a] + ([b] + body));
  }

  method PushTwo(v: RemapClassesInitializeVector, a: nat, b: nat)
    requires v.Valid() && v.work.current.Some?
    modifies v`data, v`work
    ensures v.Valid() && v.work == Writing(old(v.work), old(Open(v)) + [a, b])
  {
    v.PushBack(a);
    v.PushBack(b);
    assert old(Open(v)) + [a] + [b] == old(Open(v)) + [a, b];
  }

  method UnshiftTwo(v: RemapClassesInitializeVector, at: nat, a: nat, b: nat, ghost pre: seq<nat>, ghost body: seq<nat>)
    requires v.Valid() && v.work.current.Some? && at == v.startIndex + 2 + |pre| && Open(v) == pre + body
    modifies v`data, v`work
    ensures v.Valid() && v.work == Writing(old(v.work), pre + ([a, b] + body))
  {
    InsertTwice(pre, body, a, b);
    v.Insert(at, b);
    assert Open(v) == InsertAt(pre + body, |pre|, b);
    v.Insert(at, a);
  }

  /** How many words the pairs of a record take. */
  ghost function Size(o: Options, ps: seq<Pair>): nat { 2 * |RecordPairs(o, ps)| }

  lemma SizeMore(o: Options, ps: seq<Pair>, p: Pair)
    ensures Size(o, ps + [p]) == Size(o, ps) + if p == Pair(DATATYPE_OPTION, o.separator) then 4 else 2
  {
    SeparatorsAppend(o, ps, p);
    UnshiftedLength(o, Separators(o, ps));
    UnshiftedLength(o, Separators(o, ps + [p]));
  }

  method PushPair(v: RemapClassesInitializeVector, o: Options, valueStart: nat, p: Pair,
                  ghost pre: seq<nat>, ghost ps: seq<Pair>) returns (words: nat)
    requires v.Valid() && v.work.current.Some? && valueStart == v.startIndex + 2 + |pre|
    requires Open(v) == pre + Flat(RecordPairs(o, ps))
    modifies v`data, v`work
    ensures v.Valid() && v.work == Writing(old(v.work), pre + Flat(RecordPairs(o, ps + [p])))
    ensures Size(o, ps) + words == Size(o, ps + [p])
  {
    ghost var flat := Flat(RecordPairs(o, ps));
    RecordFlatMore(o, ps, p);
    SizeMore(o, ps, p);
    PushTwo(v, p.kind, p.value);
    SeqAssoc(pre, flat, [p.kind, p.value]);
    words := 2;
    if p == Pair(DATATYPE_OPTION, o.separator) {
      UnshiftTwo(v, valueStart, DATATYPE_OPTION, o.useSeparator, pre, flat + [p.kind, p.value]);
      words := 4;
    }
  }

  /** The values of one argument up to the first error; `kind` is the last one's. */
  method PushValues(v: RemapClassesInitializeVector, o: Options, valueStart: nat, arg: Arg, ghost pre: seq<nat>, ghost ps: seq<Pair>)
    returns (ok: bool, words: nat, kind: nat)
    requires v.Valid() && v.work.current.Some? && valueStart == v.startIndex + 2 + |pre|
    requires Open(v) == pre + Flat(RecordPairs(o, ps))
    modifies v`data, v`work
    ensures v.Valid() && v.work == Writing(old(v.work), Open(v)) && (ok <==> ArgOkTo(arg, |arg|))
    ensures ok ==> v.work == Writing(old(v.work), pre + Flat(RecordPairs(o, ps + arg))) && kind == KindTo(arg, |arg|)
    ensures ok ==> Size(o, ps) + words == Size(o, ps + arg)
  {
    kind := DATATYPE_NONE;
    ghost var done := ps;
    ok, words := true, 0;
    for j := 0 to |arg|
      invariant v.Valid()
      invariant kind == KindTo(arg, j) && ArgOkTo(arg, j)
      invariant done == ps + arg[..j]
      invariant v.work == Writing(old(v.work), pre + Flat(RecordPairs(o, done)))
      invariant Size(o, ps) + words == Size(o, done)
    {
      ArgOkMore(arg, j);
      TakeMore(ps, arg, j);
      if arg[j].kind == DATATYPE_NONE || (kind != DATATYPE_NONE && arg[j].kind != DATATYPE_MODIFIERFLAG) {
        return false, words, kind;
      }
      kind := arg[j].kind;
      var more := PushPair(v, o, valueStart, arg[j], pre, done);
      words := words + more;
      done := done + [arg[j]];
    }
    assert arg[..|arg|] == arg;
  }

  /** One argument with the end marker of a group of modifiers. */
  method PushArg(v: RemapClassesInitializeVector, o: Options, valueStart: nat, arg: Arg,
                 ghost pre: seq<nat>, ghost ps: seq<Pair>, ghost qs: seq<Pair>)
    returns (ok: bool, words: nat)
    requires qs == ps + ArgPairs(arg)
    requires v.Valid() && v.work.current.Some? && valueStart == v.startIndex + 2 + |pre|
    requires Open(v) == pre + Flat(RecordPairs(o, ps))
    modifies v`data, v`work
    ensures v.Valid() && v.work == Writing(old(v.work), Open(v)) && (ok <==> ArgOk(arg))
    ensures ok ==> v.work == Writing(old(v.work), pre + Flat(RecordPairs(o, qs))) && Size(o, ps) + words == Size(o, qs)
  {
    var kind;
    ok, words, kind := PushValues(v, o, valueStart, arg, pre, ps);
    if ok && kind == DATATYPE_MODIFIERFLAG {
      SeqAssoc(ps, arg, [Pair(DATATYPE_MODIFIERFLAGS_END, 1)]);
      var more := PushPair(v, o, valueStart, Pair(DATATYPE_MODIFIERFLAGS_END, 1), pre, ps + arg);
      words := words + more;
    }
  }

  ghost function KindTo(arg: Arg, n: nat): nat
    requires n <= |arg|
  {
    if n == 0 then DATATYPE_NONE else arg[n - 1].kind
  }

  /** The test for each value. */
  lemma ArgOkMore(arg: Arg, j: nat)
    requires j < |arg| && ArgOkTo(arg, j)
    ensures var bad := arg[j].kind == DATATYPE_NONE ||
                       (KindTo(arg, j) != DATATYPE_NONE && arg[j].kind != DATATYPE_MODIFIERFLAG);
            (ArgOkTo(arg, j + 1) <==> !bad) && (bad ==> !ArgOkTo(arg, |arg|))
  {
  }

  ghost predicate ArgOkTo(arg: Arg, n: nat)
    requires n <= |arg|
  {
    forall i :: 0 <= i < n ==> arg[i].kind != DATATYPE_NONE && (i > 0 ==> arg[i].kind == DATATYPE_MODIFIERFLAG)
  }

  lemma AllPairsMore(args: seq<Arg>, i: nat)
    requires i < |args|
    ensures AllPairs(args, i + 1) == AllPairs(args, i) + ArgPairs(args[i])
  {
  }

  lemma TakeMore<T>(a: seq<T>, b: seq<T>, j: nat)
    requires j < |b|
    ensures a + b[..j] + [b[j]] == a + b[..j + 1]
  {
  }

  /** add_to_initialize_vector: false if a symbol is unknown or something other than modifiers is connected; the entry
      is then left open, to be dropped.  Otherwise the record of the arguments and the filters are appended. */
  method AddToInitializeVector(v: RemapClassesInitializeVector, o: Options, remapType: nat, args: seq<Arg>, filters: seq<nat>)
    returns (ok: bool)
    requires v.Valid() && v.work.current.Some?
    modifies v`data, v`work
    ensures v.Valid() && v.work == Writing(old(v.work), Open(v))
    ensures ok <==> AllOk(args, |args|)
    ensures ok ==> v.work == Writing(old(v.work), old(Open(v)) + RecordWords(remapType, RecordPairs(o, AllPairs(args, |args|))) + filters)
  {
    ghost var before, ps := Open(v), RecordPairs(o, AllPairs(args, |args|));
    var countIndex := |v.data|;
    PushTwo(v, 0, remapType);
    NothingYet(before + [0, remapType], o);
    var good, words := PushArgs(v, o, |v.data|, args, 0, before + [0, remapType], v.work);
    if !good {
      return false;
    }
    PatchCount(v, countIndex, 1 + words, before, remapType, ps);
    PushAll(v, filters);
    ok := true;
  }

  method PatchCount(v: RemapClassesInitializeVector, countIndex: nat, count: nat, ghost before: seq<nat>, ghost remapType: nat,
                    ghost ps: seq<Pair>)
    requires v.Valid() && v.work.current.Some? && countIndex == v.startIndex + 2 + |before| && count == 1 + 2 * |ps|
    requires Open(v) == before + [0, remapType] + Flat(ps)
    modifies v`data, v`work
    ensures v.Valid() && v.work == Writing(old(v.work), before + RecordWords(remapType, ps))
  {
    UpdateCount(before, remapType, ps, count);
    v.Update(countIndex, count);
  }

  /** The arguments from number `i` on, up to the first error. */
  method PushArgs(v: RemapClassesInitializeVector, o: Options, valueStart: nat, args: seq<Arg>, i: nat,
                  ghost pre: seq<nat>, ghost w0: Work) returns (ok: bool, words: nat)
    requires v.Valid() && w0.current.Some? && v.work == Writing(w0, Open(v)) && valueStart == v.startIndex + 2 + |pre|
    requires i <= |args| && AllOk(args, i) && Open(v) == pre + Flat(RecordPairs(o, AllPairs(args, i)))
    modifies v`data, v`work
    ensures v.Valid() && v.work == Writing(w0, Open(v))
    ensures ok <==> AllOk(args, |args|)
    ensures ok ==> Open(v) == pre + Flat(RecordPairs(o, AllPairs(args, |args|)))
    ensures ok ==> Size(o, AllPairs(args, i)) + words == Size(o, AllPairs(args, |args|))
    decreases |args| - i
  {
    if i == |args| {
      return true, 0;
    }
    ok, words := PushArgAt(v, o, valueStart, args, i, pre, AllPairs(args, i));
    if ok {
      var more;
      ok, more := PushArgs(v, o, valueStart, args, i + 1, pre, w0);
      words := words + more;
    }
  }

  method PushArgAt(v: RemapClassesInitializeVector, o: Options, valueStart: nat, args: seq<Arg>, i: nat,
                   ghost pre: seq<nat>, ghost done: seq<Pair>) returns (ok: bool, words: nat)
    requires v.Valid() && v.work.current.Some? && valueStart == v.startIndex + 2 + |pre| && i < |args|
    requires AllOk(args, i) && done == AllPairs(args, i) && Open(v) == pre + Flat(RecordPairs(o, done))
    modifies v`data, v`work
    ensures v.Valid() && v.work == Writing(old(v.work), Open(v))
    ensures var qs := done + ArgPairs(args[i]);
            if ok
            then AllOk(args, i + 1) && qs == AllPairs(args, i + 1) && Open(v) == pre + Flat(RecordPairs(o, qs)) &&
                 Size(o, done) + words == Size(o, qs)
            else !AllOk(args, |args|)
  {
    AllPairsMore(args, i);
    ok, words := PushArg(v, o, valueStart, args[i], pre, done, done + ArgPairs(args[i]));
    if !ok {
      NotAllOk(args, i, |args|);
    }
  }

  lemma NothingYet(pre: seq<nat>, o: Options)
    ensures pre + Flat(RecordPairs(o, [])) == pre && Size(o, []) == 0
  {
  }

  predicate AllOk(args: seq<Arg>, n: nat)
    requires n <= |args|
  {
    n == 0 || (AllOk(args, n - 1) && ArgOk(args[n - 1]))
  }

  lemma {:induction false} NotAllOk(args: seq<Arg>, i: nat, n: nat)
    requires i < n <= |args| && !ArgOk(args[i])
    ensures !AllOk(args, n)
  {
    if i + 1 < n {
      NotAllOk(args, i, n - 1);
    }
  }

  lemma UpdateCount(before: seq<nat>, remapType: nat, ps: seq<Pair>, count: nat)
    requires count == 1 + 2 * |ps|
    ensures (before + [0, remapType] + Flat(ps))[|before| := count] == before + RecordWords(remapType, ps)
  {
    PatchMiddle(before, 0, count, remapType, Flat(ps));
    assert RecordWords(remapType, ps) == [count, remapType] + Flat(ps);
  }

  lemma PatchMiddle(before: seq<nat>, a: nat, b: nat, t: nat, body: seq<nat>)
    ensures (before + [a, t] + body)[|before| := b] == before + ([b, t] + body)
  {
  }

  method PushAll(v: RemapClassesInitializeVector, words: seq<nat>)
    requires v.Valid() && v.work.current.Some?
    modifies v`data, v`work
    ensures v.Valid() && v.work == Writing(old(v.work), old(Open(v)) + words)
  {
    assert old(Open(v)) + words[..0] == old(Open(v));
    for i := 0 to |words|
      invariant v.Valid() && v.work == Writing(old(v.work), old(Open(v)) + words[..i])
    {
      v.PushBack(words[i]);
      assert old(Open(v)) + words[..i] + [words[i]] == old(Open(v)) + words[..i + 1];
    }
    assert words[..|words|] == words;
  }

  /** The processor of an autogen is given its pairs in order. */
  lemma ItemPairs(a: Autogen)
    ensures PairsFrom(a.Item().vec, 1) == a.pairs
  {
    PairsRoundTrip([a.remapType], a.pairs);
  }
}
