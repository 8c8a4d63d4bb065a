/** From the arguments of the rules to the processors of the kernel, across the whole format: the compiler writes every
    entry with its autogens and their filters, freezes the vector and sends it
    (src/lib/xml_compiler/src/xml_compiler+remapclasses_initialize_vector_loader.cpp), and the kernel loads it, reads the
    records of every slot and feeds the pairs to the processors (src/core/kext/RemapClass.cpp:245-364, 562-663,
    src/core/kext/RemapFunc/RemapFuncFactory.hpp).
 */
module Compilation {
  import opened Wrappers
  import opened Sequences
  import opened InitializeVector
  import opened Records
  import opened Filters

  /** A filter in force for an autogen. */
  datatype FilterSource = FilterSource(filterType: nat, args: seq<Argument>)

  datatype AutogenSource = AutogenSource(remapType: nat, args: seq<Arg>, filters: seq<FilterSource>)

  datatype EntrySource = EntrySource(index: nat, autogens: seq<AutogenSource>)

  /** The symbol table: option numbers and wildcards. */
  datatype Symbols = Symbols(options: Options, any: Any)

  /** What the kernel makes of a record: the pairs its processor was given, whether it ignores pass-through mode, and its
      filters. */
  datatype Processor = Processor(added: seq<Pair>, ignorePassThrough: bool, filters: seq<seq<nat>>)

  // ---------------------------------------------------------------------------------------------
  // The specification

  /** The filters that have arguments, each starting with its type. */
  ghost function FilterList(s: Symbols, fs: seq<FilterSource>, n: nat): seq<seq<nat>>
    requires n <= |fs|
  {
    if n == 0 then []
    else
      var f := fs[n - 1];
      var words := WordsOf(f.filterType, s.any, f.args);
      if words == [] then FilterList(s, fs, n - 1) else FilterList(s, fs, n - 1) + [[f.filterType] + words]
  }

  /** Filters with arguments keep their order, and those without leave no trace. */
  lemma {:induction false} FilterListAt(s: Symbols, fs: seq<FilterSource>, n: nat, i: nat)
    requires i < n <= |fs|
    ensures var before, words := FilterList(s, fs, i), WordsOf(fs[i].filterType, s.any, fs[i].args);
            var list := FilterList(s, fs, n);
            |before| <= |list| && list[..|before|] == before &&
            (words != [] ==> |before| < |list| && list[|before|] == [fs[i].filterType] + words)
    ensures (forall j :: 0 <= j < n ==> WordsOf(fs[j].filterType, s.any, fs[j].args) != []) ==> |FilterList(s, fs, n)| == n
  {
    if i + 1 < n {
      FilterListAt(s, fs, n - 1, i);
    } else if n > 1 {
      FilterListAt(s, fs, n - 1, n - 2);
    }
  }

  ghost function PairsOf(s: Symbols, a: AutogenSource): seq<Pair> {
    RecordPairs(s.options, AllPairs(a.args, |a.args|))
  }

  ghost function ToAutogen(s: Symbols, a: AutogenSource): Autogen {
    Autogen(a.remapType, PairsOf(s, a), FilterList(s, a.filters, |a.filters|))
  }

  ghost function ToAutogens(s: Symbols, gs: seq<AutogenSource>, n: nat): seq<Autogen>
    requires n <= |gs|
  {
    if n == 0 then [] else ToAutogens(s, gs, n - 1) + [ToAutogen(s, gs[n - 1])]
  }

  /** The words of the first `n` autogens. */
  ghost function EntryPayload(s: Symbols, gs: seq<AutogenSource>, n: nat): seq<nat>
    requires n <= |gs|
  {
    PayloadWordsOf(ToAutogens(s, gs, n))
  }

  /** The processor an autogen should get. */
  ghost function ToProcessor(s: Symbols, a: AutogenSource): Processor {
    Processor(Added(s.options, PairsOf(s, a)), Pair(DATATYPE_OPTION, s.options.ignorePassThrough) in PairsOf(s, a),
              FilterList(s, a.filters, |a.filters|))
  }

  ghost function ToProcessors(s: Symbols, gs: seq<AutogenSource>): (r: seq<Processor>)
    ensures |r| == |gs| && forall i :: 0 <= i < |gs| ==> r[i] == ToProcessor(s, gs[i])
  {
    seq(|gs|, i requires 0 <= i < |gs| => ToProcessor(s, gs[i]))
  }

  predicate AutogensOk(gs: seq<AutogenSource>, n: nat)
    requires n <= |gs|
  {
    n == 0 || (AutogensOk(gs, n - 1) && AllOk(gs[n - 1].args, |gs[n - 1].args|))
  }

  /** Types are those of remaps and filters. */
  predicate TypedAutogen(a: AutogenSource) {
    IsRemap(a.remapType) && forall j :: 0 <= j < |a.filters| ==> IsFilter(a.filters[j].filterType)
  }

  predicate Typed(e: EntrySource) {
    forall i :: 0 <= i < |e.autogens| ==> TypedAutogen(e.autogens[i])
  }

  ghost function ToEntry(s: Symbols, e: EntrySource): Entry {
    Entry(e.index, EntryPayload(s, e.autogens, |e.autogens|))
  }

  ghost function ToEntries(s: Symbols, es: seq<EntrySource>): seq<Entry> {
    if es == [] then [] else ToEntries(s, es[..|es| - 1]) + [ToEntry(s, es[|es| - 1])]
  }

  /** The entries that are kept: without errors, and with an index that is not taken. */
  ghost function Accepted(s: Symbols, es: seq<EntrySource>, n: nat): seq<EntrySource>
    requires n <= |es|
  {
    if n == 0 then []
    else
      var before, e := Accepted(s, es, n - 1), es[n - 1];
      if e.index in Indexes(ToEntries(s, before)) || !AutogensOk(e.autogens, |e.autogens|) then before else before + [e]
  }

  // ---------------------------------------------------------------------------------------------
  // Writing

  lemma {:induction false} PayloadAppend(gs: seq<Autogen>, g: Autogen)
    ensures PayloadWordsOf(gs + [g]) == PayloadWordsOf(gs) + AutogenWords(g)
  {
    if gs == [] {
      assert gs + [g] == [g] && [g][1..] == [];
    } else {
      PayloadAppend(gs[1..], g);
      assert (gs + [g])[1..] == gs[1..] + [g];
      SeqAssoc(AutogenWords(gs[0]), PayloadWordsOf(gs[1..]), AutogenWords(g));
    }
  }

  lemma PayloadMore(s: Symbols, gs: seq<AutogenSource>, i: nat)
    requires i < |gs|
    ensures EntryPayload(s, gs, i + 1) == EntryPayload(s, gs, i) + AutogenWords(ToAutogen(s, gs[i]))
  {
    PayloadAppend(ToAutogens(s, gs, i), ToAutogen(s, gs[i]));
  }

  lemma NoPayload(s: Symbols, gs: seq<AutogenSource>)
    ensures EntryPayload(s, gs, 0) == []
  {
  }

  method WriteFilters(s: Symbols, fs: seq<FilterSource>) returns (data: seq<nat>)
    requires forall j :: 0 <= j < |fs| ==> IsFilter(fs[j].filterType)
    ensures data == FilterWords(FilterList(s, fs, |fs|))
  {
    var fv := new FilterVector();
    for i := 0 to |fs|
      invariant fv.Valid() && fv.filters == FilterList(s, fs, i)
    {
      fv.Add(fs[i].filterType, s.any, fs[i].args);
    }
    data := fv.data;
  }

  /** One autogen; false if its arguments have an error. */
  method WriteAutogen(s: Symbols, v: RemapClassesInitializeVector, a: AutogenSource) returns (ok: bool)
    requires v.Valid() && v.work.current.Some? && TypedAutogen(a)
    modifies v`data, v`work
    ensures v.Valid() && v.work == Writing(old(v.work), Open(v))
    ensures ok <==> AllOk(a.args, |a.args|)
    ensures ok ==> Open(v) == old(Open(v)) + AutogenWords(ToAutogen(s, a))
  {
    var filters := WriteFilters(s, a.filters);
    ok := AddToInitializeVector(v, s.options, a.remapType, a.args, filters);
    SeqAssoc(old(Open(v)), RecordWords(a.remapType, PairsOf(s, a)), filters);
  }

  lemma {:induction false} NotAutogensOk(gs: seq<AutogenSource>, i: nat, n: nat)
    requires i < n <= |gs| && !AllOk(gs[i].args, |gs[i].args|)
    ensures !AutogensOk(gs, n)
  {
    if i + 1 < n {
      NotAutogensOk(gs, i, n - 1);
    }
  }

  /** The autogens from number `i` on, up to the first error. */
  method WriteAutogens(s: Symbols, v: RemapClassesInitializeVector, gs: seq<AutogenSource>, i: nat, ghost w0: Work)
    returns (ok: bool)
    requires v.Valid() && w0.current.Some? && v.work == Writing(w0, Open(v))
    requires i <= |gs| && forall j :: 0 <= j < |gs| ==> TypedAutogen(gs[j])
    requires AutogensOk(gs, i) && Open(v) == EntryPayload(s, gs, i)
    modifies v`data, v`work
    ensures v.Valid() && v.work == Writing(w0, Open(v))
    ensures ok <==> AutogensOk(gs, |gs|)
    ensures ok ==> Open(v) == EntryPayload(s, gs, |gs|)
    decreases |gs| - i
  {
    if i == |gs| {
      return true;
    }
    ok := WriteAutogenAt(s, v, gs, i, w0, Open(v));
    if ok {
      ok := WriteAutogens(s, v, gs, i + 1, w0);
    }
  }

  method WriteAutogenAt(s: Symbols, v: RemapClassesInitializeVector, gs: seq<AutogenSource>, i: nat,
                        ghost w0: Work, ghost payload: seq<nat>) returns (ok: bool)
    requires v.Valid() && w0.current.Some? && v.work == Writing(w0, payload)
    requires i < |gs| && TypedAutogen(gs[i]) && AutogensOk(gs, i) && payload == EntryPayload(s, gs, i)
    modifies v`data, v`work
    ensures v.Valid() && v.work == Writing(w0, Open(v))
    ensures if ok then AutogensOk(gs, i + 1) && Open(v) == EntryPayload(s, gs, i + 1) else !AutogensOk(gs, |gs|)
  {
    ghost var next := EntryPayload(s, gs, i + 1);
    PayloadMore(s, gs, i);
    ok := WriteAutogen(s, v, gs[i]);
    assert ok ==> Open(v) == next;
    if !ok {
      NotAutogensOk(gs, i, |gs|);
    }
  }

  /** One entry: completed if it is without errors and its index is free, otherwise nothing of it stays. */
  method WriteEntry(s: Symbols, v: RemapClassesInitializeVector, e: EntrySource) returns (ok: bool)
    requires v.Valid() && !v.frozen && Typed(e)
    modifies v
    ensures v.Valid() && !v.frozen
    ensures ok <==> e.index !in Indexes(old(v.work).completed) && AutogensOk(e.autogens, |e.autogens|)
    ensures v.work.completed == if ok then old(v.work).completed + [ToEntry(s, e)] else old(v.work).completed
  {
    ok := v.Start(e.index);
    if !ok {
      return;
    }
    ghost var entry := ToEntry(s, e);
    NoPayload(s, e.autogens);
    ok := WriteAutogens(s, v, e.autogens, 0, v.work);
    if ok {
      assert v.work.current.value == entry;
      v.End();
    }
  }

  lemma ToEntriesAppend(s: Symbols, es: seq<EntrySource>, e: EntrySource)
    ensures ToEntries(s, es + [e]) == ToEntries(s, es) + [ToEntry(s, e)]
  {
    assert (es + [e])[..|es|] == es;
  }

  method WriteEntries(s: Symbols, es: seq<EntrySource>) returns (data: seq<nat>)
    requires AllTyped(es)
    ensures Distinct(ToEntries(s, Accepted(s, es, |es|)))
    ensures data == Vector(Frozen(ToEntries(s, Accepted(s, es, |es|))))
  {
    var v := new RemapClassesInitializeVector();
    ghost var accepted: seq<EntrySource> := [];
    for i := 0 to |es|
      invariant v.Valid() && !v.frozen
      invariant accepted == Accepted(s, es, i) && v.work.completed == ToEntries(s, accepted)
    {
      ToEntriesAppend(s, accepted, es[i]);
      TypedAt(es, i);
      var ok := WriteEntry(s, v, es[i]);
      if ok {
        accepted := accepted + [es[i]];
      }
    }
    v.Freeze();
    data := v.data;
  }

  // ---------------------------------------------------------------------------------------------
  // Reading

  ghost function ReadProcessor(o: Options, item: KernelItem): Processor {
    var ps := PairsFrom(item.vec, 1);
    Processor(Added(o, ps), Pair(DATATYPE_OPTION, o.ignorePassThrough) in ps, item.filters)
  }

  ghost function ReadProcessors(o: Options, items: seq<KernelItem>): (r: seq<Processor>)
    ensures |r| == |items| && forall i :: 0 <= i < |items| ==> r[i] == ReadProcessor(o, items[i])
  {
    seq(|items|, i requires 0 <= i < |items| => ReadProcessor(o, items[i]))
  }

  /** One class of the kernel. */
  method ReadClass(o: Options, words: seq<nat>) returns (ps: seq<Processor>)
    ensures ps == ReadProcessors(o, ParseItems(words, []))
  {
    var items := ReadItems(words);
    ps := [];
    for i := 0 to |items|
      invariant |ps| == i && forall j :: 0 <= j < i ==> ps[j] == ReadProcessor(o, items[j])
    {
      var added, ignore := Create(o, items[i].vec);
      ps := ps + [Processor(added, ignore, items[i].filters)];
    }
  }

  lemma {:induction false} ItemsAt(gs: seq<Autogen>, i: nat)
    requires i < |gs|
    ensures |Items(gs)| == |gs| && Items(gs)[i] == gs[i].Item()
    decreases |gs|
  {
    if |gs| > 1 {
      ItemsAt(gs[1..], if i > 0 then i - 1 else 0);
    }
  }

  lemma {:induction false} ToAutogensAt(s: Symbols, gs: seq<AutogenSource>, n: nat, i: nat)
    requires i < n <= |gs|
    ensures |ToAutogens(s, gs, n)| == n && ToAutogens(s, gs, n)[i] == ToAutogen(s, gs[i])
  {
    if n > 1 {
      ToAutogensAt(s, gs, n - 1, if i < n - 1 then i else 0);
    }
  }

  ghost predicate FiltersOk(s: Symbols, fs: seq<FilterSource>, n: nat)
    requires n <= |fs|
  {
    forall i :: 0 <= i < |FilterList(s, fs, n)| ==> FilterList(s, fs, n)[i] != [] && IsFilter(FilterList(s, fs, n)[i][0])
  }

  lemma {:induction false} FilterListOk(s: Symbols, fs: seq<FilterSource>, n: nat)
    requires n <= |fs| && forall j :: 0 <= j < |fs| ==> IsFilter(fs[j].filterType)
    ensures FiltersOk(s, fs, n)
  {
    if n > 0 {
      FilterListOk(s, fs, n - 1);
    }
  }

  lemma AutogenAt(s: Symbols, e: EntrySource, i: nat)
    requires Typed(e) && i < |e.autogens|
    ensures var gs := ToAutogens(s, e.autogens, |e.autogens|);
            |gs| == |e.autogens| == |Items(gs)| && gs[i].Ok() &&
            ReadProcessor(s.options, Items(gs)[i]) == ToProcessor(s, e.autogens[i])
  {
    var gs, a := ToAutogens(s, e.autogens, |e.autogens|), e.autogens[i];
    ToAutogensAt(s, e.autogens, |e.autogens|, i);
    assert TypedAutogen(a);
    FilterListOk(s, a.filters, |a.filters|);
    ItemsAt(gs, i);
    ItemPairs(gs[i]);
  }

  lemma ItemsOfEntry(s: Symbols, e: EntrySource)
    requires Typed(e)
    ensures ParseItems(ToEntry(s, e).payload, []) == Items(ToAutogens(s, e.autogens, |e.autogens|))
  {
    var gs := ToAutogens(s, e.autogens, |e.autogens|);
    if e.autogens != [] {
      AutogenAt(s, e, 0);
    }
    forall i | 0 <= i < |gs| ensures gs[i].Ok() {
      AutogenAt(s, e, i);
    }
    RecordsRoundTrip(gs, []);
    assert [] + Items(gs) == Items(gs);
  }

  lemma ProcessorsOfItems(s: Symbols, e: EntrySource, items: seq<KernelItem>)
    requires Typed(e) && items == Items(ToAutogens(s, e.autogens, |e.autogens|))
    ensures ReadProcessors(s.options, items) == ToProcessors(s, e.autogens)
  {
    if e.autogens != [] {
      AutogenAt(s, e, 0);
    }
    var ps, qs := ReadProcessors(s.options, items), ToProcessors(s, e.autogens);
    forall i | 0 <= i < |qs| ensures ps[i] == qs[i] {
      AutogenAt(s, e, i);
    }
  }

  /** The class read from the payload of an entry holds, for each of its autogens in order, the processor it should
      get. */
  lemma ClassRoundTrip(s: Symbols, e: EntrySource)
    requires Typed(e)
    ensures ReadProcessors(s.options, ParseItems(ToEntry(s, e).payload, [])) == ToProcessors(s, e.autogens)
  {
    ItemsOfEntry(s, e);
    ProcessorsOfItems(s, e, ParseItems(ToEntry(s, e).payload, []));
  }

  // ---------------------------------------------------------------------------------------------
  // The whole way

  lemma {:induction false} ToEntriesAt(s: Symbols, es: seq<EntrySource>, k: nat)
    requires k < |es|
    ensures |ToEntries(s, es)| == |es| && ToEntries(s, es)[k] == ToEntry(s, es[k])
  {
    if |es| > 1 {
      ToEntriesAt(s, es[..|es| - 1], if k < |es| - 1 then k else 0);
    }
  }

  lemma {:induction false} DistinctPayload(es: seq<Entry>, k: nat)
    requires Distinct(es) && k < |es|
    ensures PayloadOf(es, es[k].index) == es[k].payload
    decreases |es|
  {
    if k > 0 {
      DistinctRest(es);
      IndexesAre(es[1..]);
      assert es[1..][k - 1] == es[k];
      DistinctPayload(es[1..], k - 1);
    }
  }

  ghost predicate AllTyped(es: seq<EntrySource>) {
    es == [] || (AllTyped(es[..|es| - 1]) && Typed(es[|es| - 1]))
  }

  lemma {:induction false} TypedAt(es: seq<EntrySource>, k: nat)
    requires AllTyped(es) && k < |es|
    ensures Typed(es[k])
  {
    if k < |es| - 1 {
      TypedAt(es[..|es| - 1], k);
    }
  }

  lemma TypedAppend(es: seq<EntrySource>, e: EntrySource)
    requires AllTyped(es) && Typed(e)
    ensures AllTyped(es + [e])
  {
    assert (es + [e])[..|es|] == es;
  }

  lemma {:induction false} AcceptedTyped(s: Symbols, es: seq<EntrySource>, n: nat)
    requires n <= |es| && AllTyped(es)
    ensures AllTyped(Accepted(s, es, n))
  {
    if n > 0 {
      AcceptedTyped(s, es, n - 1);
      TypedAt(es, n - 1);
      TypedAppend(Accepted(s, es, n - 1), es[n - 1]);
    }
  }

  /** Nothing is dropped when there are no errors and no index occurs twice. */
  lemma {:induction false} AllAccepted(s: Symbols, es: seq<EntrySource>, n: nat)
    requires n <= |es| && Distinct(ToEntries(s, es[..n]))
    requires forall i :: 0 <= i < n ==> AutogensOk(es[i].autogens, |es[i].autogens|)
    ensures Accepted(s, es, n) == es[..n]
  {
    if n > 0 {
      var before, e := es[..n - 1], es[n - 1];
      assert es[..n] == before + [e];
      ToEntriesAppend(s, before, e);
      var entries := ToEntries(s, before);
      assert (entries + [ToEntry(s, e)])[..|entries|] == entries;
      AllAccepted(s, es, n - 1);
    }
  }

  /** An entry is kept exactly when it is without errors and no entry kept before it has its index. */
  lemma AcceptedNext(s: Symbols, es: seq<EntrySource>, k: nat)
    requires k < |es|
    ensures var before, e := Accepted(s, es, k), es[k];
            var free := forall j :: 0 <= j < |before| ==> before[j].index != e.index;
            Accepted(s, es, k + 1) == if free && AutogensOk(e.autogens, |e.autogens|) then before + [e] else before
  {
    var before, e := Accepted(s, es, k), es[k];
    IndexesAre(ToEntries(s, before));
    forall j | 0 <= j < |before| ensures before[j].index in Indexes(ToEntries(s, before)) {
      ToEntriesAt(s, before, j);
    }
    if e.index in Indexes(ToEntries(s, before)) {
      var j :| 0 <= j < |ToEntries(s, before)| && ToEntries(s, before)[j].index == e.index;
      ToEntriesLength(s, before);
      ToEntriesAt(s, before, j);
    }
  }

  lemma {:induction false} ToEntriesLength(s: Symbols, es: seq<EntrySource>)
    ensures |ToEntries(s, es)| == |es|
  {
    if es != [] {
      ToEntriesAt(s, es, 0);
    }
  }

  /** What the kernel should hold: for every accepted entry, in the slot of its index, a processor for each of its
      autogens in order; nothing in the other slots. */
  ghost predicate Holds(s: Symbols, accepted: seq<EntrySource>, classes: seq<seq<Processor>>) {
    |classes| == Max(ToEntries(s, accepted)) + 1 &&
    (forall k :: 0 <= k < |accepted| ==>
      accepted[k].index < |classes| && classes[accepted[k].index] == ToProcessors(s, accepted[k].autogens)) &&
    (forall i :: 0 <= i < |classes| && i !in Indexes(ToEntries(s, accepted)) ==> classes[i] == [])
  }

  lemma SlotOfEntry(s: Symbols, accepted: seq<EntrySource>, k: nat)
    requires Distinct(ToEntries(s, accepted)) && k < |accepted| && Typed(accepted[k])
    ensures accepted[k].index <= Max(ToEntries(s, accepted))
    ensures ReadProcessors(s.options, ParseItems(PayloadOf(ToEntries(s, accepted), accepted[k].index), [])) ==
            ToProcessors(s, accepted[k].autogens)
  {
    var es := ToEntries(s, accepted);
    ToEntriesAt(s, accepted, k);
    IndexesAre(es);
    MaxIn(es);
    assert es[k].index in Indexes(es);
    DistinctPayload(es, k);
    ClassRoundTrip(s, accepted[k]);
  }

  lemma SlotsHold(s: Symbols, accepted: seq<EntrySource>, entries: seq<Entry>, slots: seq<seq<nat>>, classes: seq<seq<Processor>>)
    requires entries == ToEntries(s, accepted) && Distinct(entries) && AllTyped(accepted)
    requires slots == Table(entries, Max(entries) + 1) && |classes| == |slots|
    requires forall i :: 0 <= i < |slots| ==> classes[i] == ReadProcessors(s.options, ParseItems(slots[i], []))
    ensures Holds(s, accepted, classes)
  {
    forall k | 0 <= k < |accepted|
      ensures accepted[k].index < |classes| && classes[accepted[k].index] == ToProcessors(s, accepted[k].autogens)
    {
      TypedAt(accepted, k);
      SlotOfEntry(s, accepted, k);
      assert slots[accepted[k].index] == PayloadOf(entries, accepted[k].index);
    }
    forall i | 0 <= i < |classes| && i !in Indexes(entries) ensures classes[i] == [] {
      PayloadAt(entries, i);
      assert slots[i] == [];
    }
  }

  /** For all entries with all their autogens, arguments and filters: within the kernel's limits, the kernel ends up with
      exactly the processors the accepted entries ask for, each with its pairs in order and with its own filters. */
  method CompileAndRead(s: Symbols, es: seq<EntrySource>) returns (r: Option<seq<seq<Processor>>>)
    requires AllTyped(es)
    ensures r.Some? <==> Delivered(ToEntries(s, Accepted(s, es, |es|))).Some?
    ensures r.Some? ==> Holds(s, Accepted(s, es, |es|), r.value)
  {
    AcceptedTyped(s, es, |es|);
    var data := WriteEntries(s, es);
    r := LoadAndRead(s, data, Accepted(s, es, |es|));
  }

  method LoadAndRead(s: Symbols, data: seq<nat>, ghost accepted: seq<EntrySource>) returns (r: Option<seq<seq<Processor>>>)
    requires AllTyped(accepted) && Distinct(ToEntries(s, accepted)) && data == Vector(Frozen(ToEntries(s, accepted)))
    ensures r.Some? <==> Delivered(ToEntries(s, accepted)).Some?
    ensures r.Some? ==> Holds(s, accepted, r.value)
  {
    ghost var entries := ToEntries(s, accepted);
    var slots := LoadFrozen(data, entries);
    if slots.None? {
      return None;
    }
    var classes := ReadClasses(s.options, slots.value);
    SlotsHold(s, accepted, entries, slots.value, classes);
    r := Some(classes);
  }

  method LoadFrozen(data: seq<nat>, ghost entries: seq<Entry>) returns (slots: Option<seq<seq<nat>>>)
    requires Distinct(entries) && data == Vector(Frozen(entries))
    ensures slots.Some? <==> Delivered(entries).Some?
    ensures slots.Some? ==> slots.value == Table(entries, Max(entries) + 1)
  {
    FramingRoundTrip(entries);
    slots := Load(data);
  }

  method ReadClasses(o: Options, slots: seq<seq<nat>>) returns (classes: seq<seq<Processor>>)
    ensures |classes| == |slots|
    ensures forall i :: 0 <= i < |slots| ==> classes[i] == ReadProcessors(o, ParseItems(slots[i], []))
  {
    classes := [];
    for i := 0 to |slots|
      invariant |classes| == i && forall j :: 0 <= j < i ==> classes[j] == ReadProcessors(o, ParseItems(slots[j], []))
    {
      var ps := ReadClass(o, slots[i]);
      classes := classes + [ps];
    }
  }
}
