/** `ModrinthAPI.construct_facets` of `src/modman/api.py`: keyword arguments
    `field__op=value` become facet strings `field<symbol>value`, grouped into one
    inner list per distinct field, in first-appearance order. */
module Facets {
  import opened Wrappers

  /** A keyword value: the source accepts `str | int`, but only strings can be joined. */
  datatype FacetValue = Str(s: string) | Int(n: int)

  datatype FacetError =
    | UnknownOperator(op: string)   // KeyError from the operator table
    | NotAString                    // TypeError from "".join on an int

  /** The six-entry operator table. */
  function Symbol(op: string): Option<string> {
    if op == "gt" then Some(">")
    else if op == "lt" then Some("<")
    else if op == "ne" then Some("!=")
    else if op == "eq" then Some(":")
    else if op == "gte" then Some(">=")
    else if op == "lte" then Some("<=")
    else None
  }

  /** A `"__"` starts at position `j` of `key`. */
  predicate SepAt(key: string, j: int) {
    0 <= j && j + 2 <= |key| && key[j] == '_' && key[j + 1] == '_'
  }

  /** Where `key.rsplit("__", 1)` splits: the start of the last `"__"`. */
  function LastSeparator(key: string): (r: Option<nat>)
    ensures r.Some? ==> SepAt(key, r.value) && forall j :: r.value < j ==> !SepAt(key, j)
    ensures r.None? ==> forall j :: !SepAt(key, j)
  {
    if |key| < 2 then None
    else if key[|key| - 2] == '_' && key[|key| - 1] == '_' then Some(|key| - 2)
    else
      var r := LastSeparator(key[..|key| - 1]);
      assert forall j :: SepAt(key, j) && j + 2 < |key| ==> SepAt(key[..|key| - 1], j);
      r
  }

  /** `field, op = key.rsplit("__", 1)`, and `key, "eq"` when there is no `"__"`. */
  function SplitKey(key: string): (string, string) {
    match LastSeparator(key)
    case None => (key, "eq")
    case Some(i) => (key[..i], key[i + 2..])
  }

  /** A key without `"__"` is all field, with operator `eq`; otherwise it is
      `field + "__" + op` with no `"__"` in `op`: the split is at the last one. */
  lemma SplitKeyMeaning(key: string)
    ensures LastSeparator(key).None? ==> SplitKey(key) == (key, "eq")
    ensures LastSeparator(key).Some? ==>
      SplitKey(key).0 + "__" + SplitKey(key).1 == key && forall j :: !SepAt(SplitKey(key).1, j)
  {
    if LastSeparator(key).Some? {
      var i := LastSeparator(key).value;
      var field, op := key[..i], key[i + 2..];
      assert forall j :: SepAt(op, j) ==> SepAt(key, i + 2 + j);
      assert field + "__" + op == key;
    }
  }

  function FieldOf(key: string): string { SplitKey(key).0 }

  function OpOf(key: string): string { SplitKey(key).1 }

  /** The symbol for a known operator (unknown ones never reach a group). */
  function SymbolOf(key: string): string {
    match Symbol(OpOf(key))
    case Some(s) => s
    case None => ""
  }

  /** The operator of the first argument whose operator is not in the table. */
  function FirstBadOp(kw: seq<(string, FacetValue)>): (r: Option<string>)
    ensures r.None? <==> forall i :: 0 <= i < |kw| ==> Symbol(OpOf(kw[i].0)).Some?
  {
    if |kw| == 0 then None
    else if Symbol(OpOf(kw[0].0)).None? then Some(OpOf(kw[0].0))
    else
      var r := FirstBadOp(kw[1..]);
      assert forall i :: 1 <= i < |kw| ==> kw[i] == kw[1..][i - 1];
      r
  }

  /** The distinct fields of the arguments, in order of first appearance. */
  function Fields(kw: seq<(string, FacetValue)>): seq<string> {
    if |kw| == 0 then []
    else
      var fs := Fields(kw[..|kw| - 1]);
      var f := FieldOf(kw[|kw| - 1].0);
      if f in fs then fs else fs + [f]
  }

  /** The (symbol, value) pairs given for field `f`, in argument order. */
  function Pairs(kw: seq<(string, FacetValue)>, f: string): seq<(string, FacetValue)> {
    if |kw| == 0 then []
    else
      var rest := Pairs(kw[..|kw| - 1], f);
      var last := kw[|kw| - 1];
      if FieldOf(last.0) == f then rest + [(SymbolOf(last.0), last.1)] else rest
  }

  /** `"".join([field, symbol, value])`, which fails on an integer value. */
  function Entry(f: string, p: (string, FacetValue)): Option<string> {
    match p.1
    case Str(s) => Some(f + p.0 + s)
    case Int(_) => None
  }

  function RenderGroup(f: string, ps: seq<(string, FacetValue)>): Option<seq<string>> {
    if |ps| == 0 then Some([])
    else match (RenderGroup(f, ps[..|ps| - 1]), Entry(f, ps[|ps| - 1]))
      case (Some(xs), Some(x)) => Some(xs + [x])
      case _ => None
  }

  function RenderAll(fs: seq<string>, kw: seq<(string, FacetValue)>): Option<seq<seq<string>>> {
    if |fs| == 0 then Some([])
    else match (RenderAll(fs[..|fs| - 1], kw), RenderGroup(fs[|fs| - 1], Pairs(kw, fs[|fs| - 1])))
      case (Some(gs), Some(g)) => Some(gs + [g])
      case _ => None
  }

  /** The reference definition of `construct_facets`. */
  function FacetsSpec(kw: seq<(string, FacetValue)>): Result<seq<seq<string>>, FacetError> {
    match FirstBadOp(kw)
    case Some(op) => Failure(UnknownOperator(op))
    case None =>
      match RenderAll(Fields(kw), kw)
      case None => Failure(NotAString)
      case Some(gs) => Success(gs)
  }

  /** `construct_facets(**kwargs)`: fill the field -> pairs mapping, then render
      every group. */
  method ConstructFacets(kwargs: seq<(string, FacetValue)>) returns (r: Result<seq<seq<string>>, FacetError>)
    ensures r == FacetsSpec(kwargs)
  {
    var collected := CollectPairs(kwargs);
    if collected.Failure? {
      return Failure(collected.error);
    }
    var fields, mapping := collected.value.0, collected.value.1;
    var rendered := RenderGroups(fields, mapping, kwargs);
    if rendered.None? {
      return Failure(NotAString);
    }
    r := Success(rendered.value);
  }

  /** The first loop of `construct_facets`: `mapping.setdefault(field, [])` then
      append `(ops[op], value)`; `fields` is the mapping's insertion order. */
  method CollectPairs(kwargs: seq<(string, FacetValue)>)
    returns (r: Result<(seq<string>, map<string, seq<(string, FacetValue)>>), FacetError>)
    ensures FirstBadOp(kwargs).Some? ==> r == Failure(UnknownOperator(FirstBadOp(kwargs).value))
    ensures FirstBadOp(kwargs).None? ==> r.Success?
    ensures r.Success? ==> r.value.0 == Fields(kwargs) && forall f :: f in r.value.1 <==> f in r.value.0
    ensures r.Success? ==> forall f :: f in r.value.1 ==> r.value.1[f] == Pairs(kwargs, f)
  {
    var fields: seq<string> := [];
    var mapping: map<string, seq<(string, FacetValue)>> := map[];
    var i := 0;
    while i < |kwargs|
      invariant 0 <= i <= |kwargs|
      invariant FirstBadOp(kwargs[..i]).None?
      invariant Collected(kwargs[..i], fields, mapping)
    {
      var key := kwargs[i].0;
      var split := SplitKey(key);
      var field, op := split.0, split.1;
      var sym := Symbol(op);
      if sym.None? {
        FirstBadOpPrefix(kwargs, i);
        return Failure(UnknownOperator(op));
      }
      assert field == FieldOf(key) && sym.value == SymbolOf(key);
      CollectStep(kwargs, i, fields, mapping);
      FirstBadOpExtend(kwargs, i);
      // mapping.setdefault(field, []).append((ops[op], value))
      var prior := if field in mapping then mapping[field] else [];
      if field !in mapping {
        fields := fields + [field];
      }
      mapping := mapping[field := prior + [(sym.value, kwargs[i].1)]];
      i := i + 1;
    }
    assert kwargs[..i] == kwargs;
    r := Success((fields, mapping));
  }

  /** What the first loop has built after the arguments `kw`: the fields in
      first-appearance order, each mapped to its pairs. */
  ghost predicate Collected(kw: seq<(string, FacetValue)>, fields: seq<string>, mapping: map<string, seq<(string, FacetValue)>>) {
    fields == Fields(kw)
    && (forall f :: f in mapping <==> f in fields)
    && (forall f :: f in mapping ==> mapping[f] == Pairs(kw, f))
  }

  /** One iteration of the first loop keeps `Collected`. */
  lemma CollectStep(kw: seq<(string, FacetValue)>, i: nat, fields: seq<string>, mapping: map<string, seq<(string, FacetValue)>>)
    requires i < |kw| && Collected(kw[..i], fields, mapping)
    ensures var f := FieldOf(kw[i].0);
      var fields' := if f in mapping then fields else fields + [f];
      var old' := if f in mapping then mapping[f] else [];
      Collected(kw[..i + 1], fields', mapping[f := old' + [(SymbolOf(kw[i].0), kw[i].1)]])
  {
    assert kw[..i + 1][..i] == kw[..i];
    var f := FieldOf(kw[i].0);
    if f !in mapping {
      PairsOfNewField(kw[..i], f);
    }
  }

  /** The second loop of `construct_facets`: one rendered list per field. */
  method RenderGroups(fields: seq<string>, mapping: map<string, seq<(string, FacetValue)>>, ghost kw: seq<(string, FacetValue)>)
    returns (r: Option<seq<seq<string>>>)
    requires forall f :: f in fields ==> f in mapping && mapping[f] == Pairs(kw, f)
    ensures r == RenderAll(fields, kw)
  {
    var result: seq<seq<string>> := [];
    var g := 0;
    while g < |fields|
      invariant 0 <= g <= |fields|
      invariant RenderAll(fields[..g], kw) == Some(result)
    {
      assert fields[..g + 1][..g] == fields[..g];
      var resultKey := RenderOne(fields[g], mapping[fields[g]]);
      if resultKey.None? {
        RenderAllNone(fields, kw, g + 1);
        return None;
      }
      result := result + [resultKey.value];
      g := g + 1;
    }
    assert fields[..g] == fields;
    r := Some(result);
  }

  /** The inner loop: `"".join([key, *value])` for each pair of one field. */
  method RenderOne(field: string, values: seq<(string, FacetValue)>) returns (r: Option<seq<string>>)
    ensures r == RenderGroup(field, values)
  {
    var resultKey: seq<string> := [];
    var j := 0;
    while j < |values|
      invariant 0 <= j <= |values|
      invariant RenderGroup(field, values[..j]) == Some(resultKey)
    {
      assert values[..j + 1][..j] == values[..j];
      match values[j].1
      case Int(_) =>
        RenderGroupNone(field, values, j + 1);
        return None;
      case Str(s) =>
        resultKey := resultKey + [field + values[j].0 + s];
      j := j + 1;
    }
    assert values[..j] == values;
    r := Some(resultKey);
  }

  /** A field not yet seen has no pairs. */
  lemma PairsOfNewField(kw: seq<(string, FacetValue)>, f: string)
    requires f !in Fields(kw)
    ensures Pairs(kw, f) == []
  {
    if |kw| > 0 {
      PairsOfNewField(kw[..|kw| - 1], f);
    }
  }

  /** A known operator extends a prefix without unknown ones. */
  lemma FirstBadOpExtend(kw: seq<(string, FacetValue)>, i: nat)
    requires i < |kw| && FirstBadOp(kw[..i]).None? && Symbol(OpOf(kw[i].0)).Some?
    ensures FirstBadOp(kw[..i + 1]).None?
  {
    assert forall j :: 0 <= j < i ==> kw[..i + 1][j] == kw[..i][j];
  }

  /** Stopping at the first unknown operator reports the same one the spec does. */
  lemma FirstBadOpPrefix(kw: seq<(string, FacetValue)>, i: nat)
    requires i < |kw| && FirstBadOp(kw[..i]).None? && Symbol(OpOf(kw[i].0)).None?
    ensures FirstBadOp(kw) == Some(OpOf(kw[i].0))
    decreases i
  {
    if i > 0 {
      assert kw[..i][0] == kw[0];
      assert kw[1..][..i - 1] == kw[..i][1..];
      FirstBadOpPrefix(kw[1..], i - 1);
    }
  }

  lemma RenderGroupNone(f: string, ps: seq<(string, FacetValue)>, n: nat)
    requires 0 < n <= |ps| && ps[n - 1].1.Int?
    ensures RenderGroup(f, ps) == None
  {
    assert ps[..n][..n - 1] == ps[..n - 1];
    assert RenderGroup(f, ps[..n]) == None;
    RenderGroupNoneExtend(f, ps, n);
  }

  lemma RenderGroupNoneExtend(f: string, ps: seq<(string, FacetValue)>, n: nat)
    requires 0 < n <= |ps| && RenderGroup(f, ps[..n]) == None
    ensures RenderGroup(f, ps) == None
    decreases |ps| - n
  {
    if n < |ps| {
      assert ps[..n + 1][..n] == ps[..n];
      RenderGroupNoneExtend(f, ps, n + 1);
    } else {
      assert ps[..n] == ps;
    }
  }

  lemma RenderAllNone(fs: seq<string>, kw: seq<(string, FacetValue)>, n: nat)
    requires 0 < n <= |fs| && RenderGroup(fs[n - 1], Pairs(kw, fs[n - 1])) == None
    ensures RenderAll(fs, kw) == None
  {
    assert fs[..n][..n - 1] == fs[..n - 1];
    assert RenderAll(fs[..n], kw) == None;
    RenderAllNoneExtend(fs, kw, n);
  }

  lemma RenderAllNoneExtend(fs: seq<string>, kw: seq<(string, FacetValue)>, n: nat)
    requires n <= |fs| && RenderAll(fs[..n], kw) == None
    ensures RenderAll(fs, kw) == None
    decreases |fs| - n
  {
    if n < |fs| {
      assert fs[..n + 1][..n] == fs[..n];
      RenderAllNoneExtend(fs, kw, n + 1);
    } else {
      assert fs[..n] == fs;
    }
  }
}

module FacetsProperties {
  import opened Wrappers
  import opened Facets

  predicate Distinct(fs: seq<string>) {
    forall a, b :: 0 <= a < b < |fs| ==> fs[a] != fs[b]
  }

  /** The number of facet strings in a list of groups. */
  function TotalLen(gs: seq<seq<string>>): nat {
    if |gs| == 0 then 0 else TotalLen(gs[..|gs| - 1]) + |gs[|gs| - 1]|
  }

  function SumPairs(fs: seq<string>, kw: seq<(string, FacetValue)>): nat {
    if |fs| == 0 then 0 else SumPairs(fs[..|fs| - 1], kw) + |Pairs(kw, fs[|fs| - 1])|
  }

  function Occurrences(fs: seq<string>, f: string): nat {
    if |fs| == 0 then 0 else Occurrences(fs[..|fs| - 1], f) + (if fs[|fs| - 1] == f then 1 else 0)
  }

  /** The fields are distinct, are exactly the fields of the arguments, and every
      prefix of the arguments lists a prefix of them: first-appearance order. */
  lemma {:induction false} FieldsOrder(kw: seq<(string, FacetValue)>)
    ensures Distinct(Fields(kw))
    ensures forall f :: f in Fields(kw) <==> exists i :: 0 <= i < |kw| && FieldOf(kw[i].0) == f
    ensures forall i :: 0 <= i <= |kw| ==> Fields(kw[..i]) <= Fields(kw)
  {
    if |kw| > 0 {
      var kw' := kw[..|kw| - 1];
      FieldsOrder(kw');
      assert forall i :: 0 <= i < |kw'| ==> kw'[i] == kw[i];
      forall f | f in Fields(kw) ensures exists i :: 0 <= i < |kw| && FieldOf(kw[i].0) == f {
        if f !in Fields(kw') {
          assert FieldOf(kw[|kw| - 1].0) == f;
        }
      }
      forall i | 0 <= i <= |kw| ensures Fields(kw[..i]) <= Fields(kw) {
        if i == |kw| {
          assert kw[..i] == kw;
        } else {
          assert kw[..i] == kw'[..i];
        }
      }
    }
  }

  /** Adding one argument adds one pair to its own field's group and none elsewhere. */
  lemma PairsStep(kw: seq<(string, FacetValue)>, g: string)
    requires |kw| > 0
    ensures |Pairs(kw, g)| == |Pairs(kw[..|kw| - 1], g)| + (if FieldOf(kw[|kw| - 1].0) == g then 1 else 0)
  {
  }

  lemma {:induction false} SumPairsStep(fs: seq<string>, kw: seq<(string, FacetValue)>)
    requires |kw| > 0
    ensures SumPairs(fs, kw) == SumPairs(fs, kw[..|kw| - 1]) + Occurrences(fs, FieldOf(kw[|kw| - 1].0))
  {
    if |fs| > 0 {
      SumPairsStep(fs[..|fs| - 1], kw);
      PairsStep(kw, fs[|fs| - 1]);
    }
  }

  lemma {:induction false} DistinctOccurrences(fs: seq<string>, f: string)
    requires Distinct(fs)
    ensures Occurrences(fs, f) == if f in fs then 1 else 0
  {
    if |fs| > 0 {
      var fs' := fs[..|fs| - 1];
      assert Distinct(fs');
      DistinctOccurrences(fs', f);
      assert fs == fs' + [fs[|fs| - 1]];
      if fs[|fs| - 1] == f {
        assert f !in fs';
      }
    }
  }

  /** Every argument lands in exactly one group. */
  lemma {:induction false} SumPairsFields(kw: seq<(string, FacetValue)>)
    ensures SumPairs(Fields(kw), kw) == |kw|
  {
    if |kw| > 0 {
      var kw' := kw[..|kw| - 1];
      var f := FieldOf(kw[|kw| - 1].0);
      SumPairsFields(kw');
      FieldsOrder(kw');
      var fs' := Fields(kw');
      SumPairsStep(fs', kw);
      DistinctOccurrences(fs', f);
      if f !in fs' {
        var fs := fs' + [f];
        assert fs[..|fs| - 1] == fs';
        PairsOfNewField(kw', f);
        PairsStep(kw, f);
        assert SumPairs(fs, kw) == SumPairs(fs', kw) + |Pairs(kw, f)|;
      }
    }
  }

  lemma {:induction false} RenderGroupShape(f: string, ps: seq<(string, FacetValue)>)
    ensures RenderGroup(f, ps).Some? <==> forall j :: 0 <= j < |ps| ==> ps[j].1.Str?
    ensures RenderGroup(f, ps).Some? ==>
      var xs := RenderGroup(f, ps).value;
      |xs| == |ps| && forall j :: 0 <= j < |ps| ==> xs[j] == f + ps[j].0 + ps[j].1.s
  {
    if |ps| > 0 {
      var ps' := ps[..|ps| - 1];
      RenderGroupShape(f, ps');
      assert forall j :: 0 <= j < |ps'| ==> ps'[j] == ps[j];
    }
  }

  lemma {:induction false} RenderAllShape(fs: seq<string>, kw: seq<(string, FacetValue)>)
    ensures RenderAll(fs, kw).Some? <==> forall g :: 0 <= g < |fs| ==> RenderGroup(fs[g], Pairs(kw, fs[g])).Some?
    ensures RenderAll(fs, kw).Some? ==>
      var gs := RenderAll(fs, kw).value;
      |gs| == |fs| && forall g :: 0 <= g < |fs| ==> gs[g] == RenderGroup(fs[g], Pairs(kw, fs[g])).value
  {
    if |fs| > 0 {
      var fs' := fs[..|fs| - 1];
      RenderAllShape(fs', kw);
      assert forall g :: 0 <= g < |fs'| ==> fs'[g] == fs[g];
    }
  }

  /** The rendered groups hold as many strings as their fields have pairs. */
  lemma {:induction false} RenderAllTotal(fs: seq<string>, kw: seq<(string, FacetValue)>)
    requires RenderAll(fs, kw).Some?
    ensures TotalLen(RenderAll(fs, kw).value) == SumPairs(fs, kw)
  {
    if |fs| > 0 {
      var fs' := fs[..|fs| - 1];
      var gs := RenderAll(fs, kw).value;
      RenderAllTotal(fs', kw);
      assert gs[..|gs| - 1] == RenderAll(fs', kw).value;
      RenderGroupShape(fs[|fs| - 1], Pairs(kw, fs[|fs| - 1]));
    }
  }

  /** The values in a field's group are those of the arguments with that field. */
  lemma {:induction false} PairsValues(kw: seq<(string, FacetValue)>, f: string)
    ensures forall j :: 0 <= j < |Pairs(kw, f)| ==> exists i :: 0 <= i < |kw| && Pairs(kw, f)[j].1 == kw[i].1
    ensures forall i :: 0 <= i < |kw| && FieldOf(kw[i].0) == f ==> exists j :: 0 <= j < |Pairs(kw, f)| && Pairs(kw, f)[j].1 == kw[i].1
  {
    var ps := Pairs(kw, f);
    if |kw| == 0 {
      assert ps == [];
    } else {
      var n := |kw| - 1;
      var kw' := kw[..n];
      PairsValues(kw', f);
      var ps' := Pairs(kw', f);
      assert ps == if FieldOf(kw[n].0) == f then ps' + [(SymbolOf(kw[n].0), kw[n].1)] else ps';
      forall j | 0 <= j < |ps| ensures exists i :: 0 <= i < |kw| && ps[j].1 == kw[i].1 {
        if j < |ps'| {
          var i :| 0 <= i < |kw'| && ps'[j].1 == kw'[i].1;
          assert ps[j] == ps'[j];
          assert kw'[i] == kw[i];
        } else {
          assert ps[j].1 == kw[n].1;
        }
      }
      forall i | 0 <= i < |kw| && FieldOf(kw[i].0) == f ensures exists j :: 0 <= j < |ps| && ps[j].1 == kw[i].1 {
        if i < n {
          assert kw'[i] == kw[i];
          var j :| 0 <= j < |ps'| && ps'[j].1 == kw'[i].1;
          assert ps[j] == ps'[j];
        } else {
          assert ps[|ps| - 1].1 == kw[n].1;
        }
      }
    }
  }

  /** The output: one group per distinct field, in first-appearance order, each
      entry `field + symbol + value` for that field's arguments in order; and the
      total number of strings equals the number of arguments. */
  lemma FacetsShape(kw: seq<(string, FacetValue)>)
    requires FacetsSpec(kw).Success?
    ensures var gs := FacetsSpec(kw).value;
      && |gs| == |Fields(kw)|
      && TotalLen(gs) == |kw|
      && forall g :: 0 <= g < |gs| ==>
           |gs[g]| == |Pairs(kw, Fields(kw)[g])|
           && forall j :: 0 <= j < |gs[g]| ==>
                Pairs(kw, Fields(kw)[g])[j].1.Str? &&
                gs[g][j] == Fields(kw)[g] + Pairs(kw, Fields(kw)[g])[j].0 + Pairs(kw, Fields(kw)[g])[j].1.s
  {
    RenderAllShape(Fields(kw), kw);
    RenderAllTotal(Fields(kw), kw);
    SumPairsFields(kw);
    forall g | 0 <= g < |Fields(kw)| {
      RenderGroupShape(Fields(kw)[g], Pairs(kw, Fields(kw)[g]));
    }
  }

  lemma {:induction false} FieldOfInFields(kw: seq<(string, FacetValue)>, i: nat)
    requires i < |kw|
    ensures FieldOf(kw[i].0) in Fields(kw)
  {
    var kw' := kw[..|kw| - 1];
    if i < |kw| - 1 {
      assert kw'[i] == kw[i];
      FieldOfInFields(kw', i);
    }
  }

  /** Where argument `i` sits in its field's group. */
  lemma {:induction false} PairsIndexOf(kw: seq<(string, FacetValue)>, i: nat) returns (j: nat)
    requires i < |kw|
    ensures j < |Pairs(kw, FieldOf(kw[i].0))| && Pairs(kw, FieldOf(kw[i].0))[j].1 == kw[i].1
  {
    var n := |kw| - 1;
    var f := FieldOf(kw[i].0);
    var kw' := kw[..n];
    var ps, ps' := Pairs(kw, f), Pairs(kw', f);
    assert ps == if FieldOf(kw[n].0) == f then ps' + [(SymbolOf(kw[n].0), kw[n].1)] else ps';
    if i < n {
      assert kw'[i] == kw[i];
      j := PairsIndexOf(kw', i);
      assert ps[j] == ps'[j];
    } else {
      j := |ps| - 1;
    }
  }

  /** An integer value makes its field's group, and so the whole call, fail. */
  lemma IntValueFails(kw: seq<(string, FacetValue)>, i: nat)
    requires i < |kw| && kw[i].1.Int?
    ensures RenderAll(Fields(kw), kw).None?
  {
    var fs := Fields(kw);
    var f := FieldOf(kw[i].0);
    FieldOfInFields(kw, i);
    var g :| 0 <= g < |fs| && fs[g] == f;
    var ps := Pairs(kw, f);
    var j := PairsIndexOf(kw, i);
    RenderGroupNone(f, ps, j + 1);
    RenderAllNone(fs, kw, g + 1);
  }

  /** With only string values every group renders. */
  lemma StringValuesRender(kw: seq<(string, FacetValue)>)
    requires forall i :: 0 <= i < |kw| ==> kw[i].1.Str?
    ensures RenderAll(Fields(kw), kw).Some?
  {
    var fs := Fields(kw);
    forall g | 0 <= g < |fs| ensures RenderGroup(fs[g], Pairs(kw, fs[g])).Some? {
      PairsValues(kw, fs[g]);
      RenderGroupShape(fs[g], Pairs(kw, fs[g]));
    }
    RenderAllShape(fs, kw);
  }

  /** The errors: an unknown operator (the first one) is a `KeyError`; otherwise
      the call fails exactly when some value is an integer. */
  lemma FacetsErrors(kw: seq<(string, FacetValue)>)
    ensures FirstBadOp(kw).Some? ==> FacetsSpec(kw) == Failure(UnknownOperator(FirstBadOp(kw).value))
    ensures FirstBadOp(kw).None? ==>
      (FacetsSpec(kw) == Failure(NotAString) <==> exists i :: 0 <= i < |kw| && kw[i].1.Int?)
    ensures FacetsSpec(kw).Success? <==> FirstBadOp(kw).None? && forall i :: 0 <= i < |kw| ==> kw[i].1.Str?
  {
    if i :| 0 <= i < |kw| && kw[i].1.Int? {
      IntValueFails(kw, i);
    } else {
      StringValuesRender(kw);
    }
  }

  lemma SingleFields(kw: seq<(string, FacetValue)>)
    requires |kw| == 1
    ensures Fields(kw) == [FieldOf(kw[0].0)]
  {
    assert kw[..0] == [];
  }

  lemma SinglePairs(kw: seq<(string, FacetValue)>)
    requires |kw| == 1
    ensures Pairs(kw, FieldOf(kw[0].0)) == [(SymbolOf(kw[0].0), kw[0].1)]
  {
    assert kw[..0] == [];
  }

  lemma SingleGroup(f: string, p: (string, FacetValue))
    requires p.1.Str?
    ensures RenderGroup(f, [p]) == Some([f + p.0 + p.1.s])
  {
    var x := f + p.0 + p.1.s;
    assert [p][..0] == [];
    assert RenderGroup(f, [p]) == Some([] + [x]);
    assert [] + [x] == [x];
  }

  lemma SingleRender(f: string, kw: seq<(string, FacetValue)>, g: seq<string>)
    requires RenderGroup(f, Pairs(kw, f)) == Some(g)
    ensures RenderAll([f], kw) == Some([g])
  {
    assert [f][..0] == [];
    assert RenderAll([f], kw) == Some([] + [g]);
    assert [] + [g] == [g];
  }

  /** One string-valued argument with a known operator renders as a single
      group holding `field + symbol + value`. */
  lemma SingleStringArgument(key: string, value: string)
    requires Symbol(OpOf(key)).Some?
    ensures FacetsSpec([(key, Str(value))]) == Success([[FieldOf(key) + SymbolOf(key) + value]])
  {
    var kw := [(key, Str(value))];
    var f := FieldOf(key);
    assert FirstBadOp(kw).None?;
    SingleFields(kw);
    SinglePairs(kw);
    SingleGroup(f, (SymbolOf(key), Str(value)));
    SingleRender(f, kw, [f + SymbolOf(key) + value]);
  }

  /** A key without `"__"` uses the `eq` operator, rendered as `":"`. */
  lemma PlainKeyUsesColon(key: string, value: string)
    requires forall j :: !SepAt(key, j)
    ensures FacetsSpec([(key, Str(value))]) == Success([[key + ":" + value]])
  {
    SplitKeyMeaning(key);
    SingleStringArgument(key, value);
  }

  lemma PlainKey(key: string)
    requires forall j :: !SepAt(key, j)
    ensures FieldOf(key) == key && OpOf(key) == "eq" && SymbolOf(key) == ":"
  {
    SplitKeyMeaning(key);
  }

  /** Fields and pairs of two arguments on different plain fields. */
  lemma TwoPlainFieldsPairs(k1: string, v1: string, k2: string, v2: string)
    requires forall j :: !SepAt(k1, j)
    requires forall j :: !SepAt(k2, j)
    requires k1 != k2
    ensures var kw := [(k1, Str(v1)), (k2, Str(v2))];
      FirstBadOp(kw).None? && Fields(kw) == [k1, k2]
      && Pairs(kw, k1) == [(":", Str(v1))] && Pairs(kw, k2) == [(":", Str(v2))]
  {
    var kw := [(k1, Str(v1)), (k2, Str(v2))];
    PlainKey(k1);
    PlainKey(k2);
    assert kw[..1] == [(k1, Str(v1))] && kw[..1][..0] == [];
    SingleFields(kw[..1]);
    SinglePairs(kw[..1]);
    assert FirstBadOp(kw[1..]).None?;
    assert Pairs(kw[..1], k2) == [];
    assert Pairs(kw, k2) == [] + [(":", Str(v2))];
  }

  /** Two arguments on different plain fields make two groups, one per field,
      in argument order: the groups are not merged into one list. */
  lemma TwoPlainFields(k1: string, v1: string, k2: string, v2: string)
    requires forall j :: !SepAt(k1, j)
    requires forall j :: !SepAt(k2, j)
    requires k1 != k2
    ensures FacetsSpec([(k1, Str(v1)), (k2, Str(v2))]) == Success([[k1 + ":" + v1], [k2 + ":" + v2]])
  {
    var kw := [(k1, Str(v1)), (k2, Str(v2))];
    TwoPlainFieldsPairs(k1, v1, k2, v2);
    SingleGroup(k1, (":", Str(v1)));
    SingleGroup(k2, (":", Str(v2)));
    SingleRender(k1, kw, [k1 + ":" + v1]);
    assert [k1, k2][..1] == [k1];
    assert RenderAll([k1, k2], kw) == Some([[k1 + ":" + v1]] + [[k2 + ":" + v2]]);
    assert [[k1 + ":" + v1]] + [[k2 + ":" + v2]] == [[k1 + ":" + v1], [k2 + ":" + v2]];
  }

  /** The key `k + "__eq"` names field `k` with the `eq` operator, for any `k`:
      its last `"__"` is the one appended. */
  lemma EqSuffixKey(k: string)
    ensures FieldOf(k + "__eq") == k && OpOf(k + "__eq") == "eq" && SymbolOf(k + "__eq") == ":"
  {
    var key := k + "__eq";
    assert SepAt(key, |k|);
    var r := LastSeparator(key);
    assert r.Some?;
    assert forall j :: |k| < j ==> !SepAt(key, j);
    assert r.value == |k|;
    assert key[..|k|] == k && key[|k| + 2..] == "eq";
  }

  /** Two arguments naming the same field, `k` and `k__eq` (two distinct keyword
      names), make one group holding both entries in argument order. */
  lemma SamePlainField(k: string, v1: string, v2: string)
    requires forall j :: !SepAt(k, j)
    ensures FacetsSpec([(k, Str(v1)), (k + "__eq", Str(v2))]) == Success([[k + ":" + v1, k + ":" + v2]])
  {
    var kw := [(k, Str(v1)), (k + "__eq", Str(v2))];
    PlainKey(k);
    EqSuffixKey(k);
    assert kw[..1] == [(k, Str(v1))] && kw[..1][..0] == [];
    SingleFields(kw[..1]);
    SinglePairs(kw[..1]);
    assert FirstBadOp(kw[1..]).None?;
    assert Fields(kw) == [k];
    assert Pairs(kw, k) == [(":", Str(v1)), (":", Str(v2))];
    var ps := Pairs(kw, k);
    assert ps[..1] == [(":", Str(v1))];
    SingleGroup(k, (":", Str(v1)));
    assert RenderGroup(k, ps) == Some([k + ":" + v1] + [k + ":" + v2]);
    assert [k + ":" + v1] + [k + ":" + v2] == [k + ":" + v1, k + ":" + v2];
    SingleRender(k, kw, [k + ":" + v1, k + ":" + v2]);
  }
}
