/** The filter records of an autogen (src/lib/xml_compiler/src/xml_compiler+filter_vector.cpp:81-207): each filter
    becomes one record with a back-patched count, an empty filter is rolled back, and the arguments of a device filter
    are completed so that every vendor starts a triple of vendor, product and location.
 */
module Filters {
  import opened Sequences
  import opened InitializeVector
  import opened Records

  // src/bridge/include/bridge.h
  const DEVICE_NOT: nat := 51
  const DEVICE_ONLY: nat := 52
  const ELAPSEDTIME_FIRST: nat := 53
  const ELAPSEDTIME_LAST: nat := 56
  const LASTPRESSED_FIRST: nat := 59
  const LASTSENT_LAST: nat := 64
  const MODIFIER_FIRST: nat := 65
  const MODIFIER_LAST: nat := 70

  /** What the symbol table says about one argument: the values between its bars, its data type and value, and whether
      it names a vendor. */
  datatype Argument = Argument(values: seq<nat>, kind: nat, value: nat, vendor: bool)

  /** The wildcards for omitted parts of a device. */
  datatype Any = Any(product: nat, location: nat)

  predicate IsModifierFilter(t: nat) { MODIFIER_FIRST <= t <= MODIFIER_LAST }
  predicate IsPairFilter(t: nat) { ELAPSEDTIME_FIRST <= t <= ELAPSEDTIME_LAST || LASTPRESSED_FIRST <= t <= LASTSENT_LAST }
  predicate IsDeviceFilter(t: nat) { t == DEVICE_NOT || t == DEVICE_ONLY }

  /** A group of modifiers, `n` of them so far. */
  function Group(values: seq<nat>, n: nat): seq<nat>
    requires n <= |values|
  {
    if n == 0 then [] else Group(values, n - 1) + [DATATYPE_MODIFIERFLAG, values[n - 1]]
  }

  /** Complete a begun triple. */
  function Filled(any: Any, words: seq<nat>): seq<nat> {
    if |words| % 3 == 1 then words + [any.product, any.location]
    else if |words| % 3 == 2 then words + [any.location]
    else words
  }

  /** The words of the first `n` arguments. */
  function Body(t: nat, any: Any, args: seq<Argument>, n: nat): seq<nat>
    requires n <= |args|
  {
    if n == 0 then []
    else
      var before, a := Body(t, any, args, n - 1), args[n - 1];
      if IsModifierFilter(t) then before + Group(a.values, |a.values|) + [DATATYPE_MODIFIERFLAGS_END, 1]
      else if IsPairFilter(t) then before + [a.kind, a.value]
      else if IsDeviceFilter(t) && a.vendor then Filled(any, before) + [a.value]
      else before + [a.value]
  }

  function WordsOf(t: nat, any: Any, args: seq<Argument>): seq<nat> {
    var body := Body(t, any, args, |args|);
    if IsDeviceFilter(t) then Filled(any, body) else body
  }

  // The other filters word by word

  lemma {:induction false} GroupAt(values: seq<nat>, n: nat, i: nat)
    requires i < n <= |values|
    ensures |Group(values, n)| == 2 * n
    ensures Group(values, n)[2 * i] == DATATYPE_MODIFIERFLAG && Group(values, n)[2 * i + 1] == values[i]
  {
    if i + 1 < n {
      GroupAt(values, n - 1, i);
    } else if n > 1 {
      GroupAt(values, n - 1, 0);
    }
  }

  /** A filter of pairs gives each argument's data type and value. */
  lemma {:induction false} PairFilterAt(t: nat, any: Any, args: seq<Argument>, n: nat, i: nat)
    requires IsPairFilter(t) && i < n <= |args|
    ensures var body := Body(t, any, args, n);
            |body| == 2 * n && body[2 * i] == args[i].kind && body[2 * i + 1] == args[i].value
  {
    if i + 1 < n {
      PairFilterAt(t, any, args, n - 1, i);
    } else if n > 1 {
      PairFilterAt(t, any, args, n - 1, 0);
    }
  }

  /** The filters of configurations and the like give each argument's value. */
  lemma {:induction false} PlainFilterAt(t: nat, any: Any, args: seq<Argument>, n: nat, i: nat)
    requires !IsPairFilter(t) && !IsModifierFilter(t) && !IsDeviceFilter(t) && i < n <= |args|
    ensures var body := Body(t, any, args, n); |body| == n && body[i] == args[i].value
  {
    if i + 1 < n {
      PlainFilterAt(t, any, args, n - 1, i);
    } else if n > 1 {
      PlainFilterAt(t, any, args, n - 1, 0);
    }
  }

  /** A filter of modifiers gives each argument's group in order, every group closed by an end marker. */
  lemma ModifierFilterNext(t: nat, any: Any, args: seq<Argument>, n: nat, i: nat)
    requires IsModifierFilter(t) && n < |args| && i < |args[n].values|
    ensures var at, body := |Body(t, any, args, n)|, Body(t, any, args, n + 1);
            |body| == at + 2 * |args[n].values| + 2 && body[..at] == Body(t, any, args, n) &&
            body[at + 2 * i] == DATATYPE_MODIFIERFLAG && body[at + 2 * i + 1] == args[n].values[i] &&
            body[|body| - 2] == DATATYPE_MODIFIERFLAGS_END && body[|body| - 1] == 1
  {
    var values := args[n].values;
    GroupAt(values, |values|, i);
    var before, group := Body(t, any, args, n), Group(values, |values|);
    assert Body(t, any, args, n + 1) == before + group + [DATATYPE_MODIFIERFLAGS_END, 1];
  }

  // ---------------------------------------------------------------------------------------------
  // Device filters

  /** Where argument `k` of a device filter is put. */
  function Position(t: nat, any: Any, args: seq<Argument>, k: nat): nat
    requires k < |args|
  {
    var before := Body(t, any, args, k);
    if args[k].vendor then |Filled(any, before)| else |before|
  }

  ghost predicate IsPrefix(a: seq<nat>, b: seq<nat>) { |a| <= |b| && b[..|a|] == a }

  lemma {:induction false} BodyGrows(t: nat, any: Any, args: seq<Argument>, m: nat, n: nat)
    requires m <= n <= |args| && IsDeviceFilter(t)
    ensures IsPrefix(Body(t, any, args, m), Body(t, any, args, n))
    decreases n - m
  {
    if m < n {
      BodyGrows(t, any, args, m, n - 1);
      var a, b, c := Body(t, any, args, m), Body(t, any, args, n - 1), Body(t, any, args, n);
      assert IsPrefix(b, c);
      assert c[..|a|] == b[..|a|];
    }
  }

  /** An argument is put at its position, a vendor at the start of a triple. */
  lemma PlacedNext(t: nat, any: Any, args: seq<Argument>, k: nat)
    requires IsDeviceFilter(t) && k < |args|
    ensures var next, p := Body(t, any, args, k + 1), Position(t, any, args, k);
            |next| == p + 1 && next[p] == args[k].value && (args[k].vendor ==> p % 3 == 0)
  {
    var before := Body(t, any, args, k);
    var base := if args[k].vendor then Filled(any, before) else before;
    assert Body(t, any, args, k + 1) == base + [args[k].value];
    FilledTriples(any, before);
  }

  lemma FilledTriples(any: Any, words: seq<nat>)
    ensures |Filled(any, words)| % 3 == 0 && IsPrefix(words, Filled(any, words))
  {
  }

  /** Every argument is in its place, and every vendor starts a triple. */
  lemma DevicePlaced(t: nat, any: Any, args: seq<Argument>, k: nat)
    requires IsDeviceFilter(t) && k < |args|
    ensures var words, p := WordsOf(t, any, args), Position(t, any, args, k);
            |words| % 3 == 0 && p < |words| && words[p] == args[k].value && (args[k].vendor ==> p % 3 == 0)
  {
    PlacedNext(t, any, args, k);
    BodyGrows(t, any, args, k + 1, |args|);
    var next, all, p := Body(t, any, args, k + 1), Body(t, any, args, |args|), Position(t, any, args, k);
    FilledTriples(any, all);
    assert all[..|next|][p] == all[p];
    assert Filled(any, all)[..|all|][p] == all[p];
  }

  /** The arguments keep their order. */
  lemma DeviceOrder(t: nat, any: Any, args: seq<Argument>, k: nat)
    requires IsDeviceFilter(t) && k + 1 < |args|
    ensures Position(t, any, args, k) < Position(t, any, args, k + 1)
  {
    PlacedNext(t, any, args, k);
  }

  lemma FilledAt(any: Any, words: seq<nat>, i: nat)
    requires |words| <= i < |Filled(any, words)|
    ensures var w := Filled(any, words)[i];
            (i % 3 == 1 && w == any.product) || (i % 3 == 2 && w == any.location)
  {
  }

  /** Everything else in a device filter is a wildcard in the place it stands for. */
  lemma {:induction false} DeviceRest(t: nat, any: Any, args: seq<Argument>, n: nat, i: nat)
    requires IsDeviceFilter(t) && n <= |args| && i < |Body(t, any, args, n)|
    ensures var w := Body(t, any, args, n)[i];
            (exists k :: 0 <= k < n && i == Position(t, any, args, k)) ||
            (i % 3 == 1 && w == any.product) || (i % 3 == 2 && w == any.location)
  {
    var before, body := Body(t, any, args, n - 1), Body(t, any, args, n);
    BodyGrows(t, any, args, n - 1, n);
    PlacedNext(t, any, args, n - 1);
    if i < |before| {
      DeviceRest(t, any, args, n - 1, i);
      assert body[..|before|][i] == body[i];
    } else if i != Position(t, any, args, n - 1) {
      assert args[n - 1].vendor && body == Filled(any, before) + [args[n - 1].value];
      FilledAt(any, before, i);
    }
  }

  lemma DeviceWords(t: nat, any: Any, args: seq<Argument>, i: nat)
    requires IsDeviceFilter(t) && i < |WordsOf(t, any, args)|
    ensures var w := WordsOf(t, any, args)[i];
            (exists k :: 0 <= k < |args| && i == Position(t, any, args, k)) ||
            (i % 3 == 1 && w == any.product) || (i % 3 == 2 && w == any.location)
  {
    var body := Body(t, any, args, |args|);
    FilledTriples(any, body);
    if i < |body| {
      DeviceRest(t, any, args, |args|, i);
      assert Filled(any, body)[..|body|][i] == body[i];
    } else {
      FilledAt(any, body, i);
    }
  }

  // ---------------------------------------------------------------------------------------------
  // The class

  lemma {:induction false} FilterWordsAppend(fs: seq<seq<nat>>, f: seq<nat>)
    ensures FilterWords(fs + [f]) == FilterWords(fs) + ([|f|] + f)
  {
    if fs == [] {
      assert fs + [f] == [f] && [f][1..] == [];
    } else {
      FilterWordsAppend(fs[1..], f);
      assert (fs + [f])[1..] == fs[1..] + [f];
      SeqAssoc([|fs[0]|] + fs[0], FilterWords(fs[1..]), [|f|] + f);
    }
  }

  class FilterVector {
    var data: seq<nat>
    /** The filters added so far, each starting with its type. */
    ghost var filters: seq<seq<nat>>

    ghost predicate Valid()
      reads this
    {
      data == FilterWords(filters) && forall i :: 0 <= i < |filters| ==> filters[i] != [] && IsFilter(filters[i][0])
    }

    constructor ()
      ensures Valid() && filters == []
    {
      data, filters := [], [];
    }

    method PushGroup(values: seq<nat>) returns (words: nat)
      modifies this`data
      ensures data == old(data) + Group(values, |values|) && words == |Group(values, |values|)|
    {
      words := 0;
      ghost var group: seq<nat> := [];
      for i := 0 to |values|
        invariant group == Group(values, i) && data == old(data) + group && words == |group|
      {
        data := data + [DATATYPE_MODIFIERFLAG];
        data := data + [values[i]];
        words := words + 2;
        group := group + [DATATYPE_MODIFIERFLAG, values[i]];
      }
    }

    method FillOmitted(any: Any, words: nat, ghost before: seq<nat>, ghost body: seq<nat>) returns (r: nat)
      requires data == before + body && words == |body|
      modifies this`data
      ensures data == before + Filled(any, body) && r == |Filled(any, body)|
    {
      r := words;
      if words % 3 == 1 {
        data := data + [any.product];
        r := r + 1;
      }
      if words % 3 == 1 || words % 3 == 2 {
        data := data + [any.location];
        r := r + 1;
      }
    }

    method PushArgument(t: nat, any: Any, a: Argument, words: nat, ghost before: seq<nat>, ghost body: seq<nat>) returns (r: nat)
      requires data == before + body && words == |body|
      modifies this`data
      ensures var body' := if IsModifierFilter(t) then body + Group(a.values, |a.values|) + [DATATYPE_MODIFIERFLAGS_END, 1]
                           else if IsPairFilter(t) then body + [a.kind, a.value]
                           else if IsDeviceFilter(t) && a.vendor then Filled(any, body) + [a.value]
                           else body + [a.value];
              data == before + body' && r == |body'|
    {
      r := words;
      if IsModifierFilter(t) {
        var more := PushGroup(a.values);
        data := data + [DATATYPE_MODIFIERFLAGS_END, 1];
        r := r + more + 2;
      } else if IsPairFilter(t) {
        data := data + [a.kind, a.value];
        r := r + 2;
      } else {
        if IsDeviceFilter(t) && a.vendor {
          r := FillOmitted(any, r, before, body);
        }
        data := data + [a.value];
        r := r + 1;
      }
    }

    /** add_: one record more, unless it has no arguments. */
    method Add(t: nat, any: Any, args: seq<Argument>)
      requires Valid() && IsFilter(t)
      modifies this
      ensures Valid()
      ensures filters == if WordsOf(t, any, args) == [] then old(filters) else old(filters) + [[t] + WordsOf(t, any, args)]
    {
      var countIndex := |data|;
      data := data + [0];
      data := data + [t];
      ghost var before, body := data, [];
      var words := 0;
      for i := 0 to |args|
        invariant body == Body(t, any, args, i) && data == before + body && words == |body| && filters == old(filters)
      {
        words := PushArgument(t, any, args[i], words, before, body);
        body := Body(t, any, args, i + 1);
      }
      if IsDeviceFilter(t) {
        words := FillOmitted(any, words, before, body);
      }
      Finish(countIndex, t, words, old(data), WordsOf(t, any, args));
    }

    /** Roll back an empty filter, otherwise patch the count. */
    method Finish(countIndex: nat, t: nat, words: nat, ghost was: seq<nat>, ghost body: seq<nat>)
      requires data == was + [0] + [t] + body && countIndex == |was| && words == |body| && IsFilter(t)
      requires was == FilterWords(filters)
      requires forall i :: 0 <= i < |filters| ==> filters[i] != [] && IsFilter(filters[i][0])
      modifies this
      ensures Valid()
      ensures filters == if body == [] then old(filters) else old(filters) + [[t] + body]
    {
      var count := words + 1;
      if count == 1 {
        data := data[..countIndex];
      } else {
        data := data[countIndex := count];
        assert data == was + ([|[t] + body|] + ([t] + body));
        FilterWordsAppend(filters, [t] + body);
        filters := filters + [[t] + body];
      }
    }
  }
}
