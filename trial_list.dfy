/**
 * The trial list of Experiment/RandStim.py: every combination of a current, a
 * frequency, a line offset and a line amplitude, built by four nested loops in
 * that order, then shuffled.  The shuffle is an arbitrary permutation.
 */
module TrialList {
  import opened Options

  /** One trial: `[curr, freq, line_mu, line_amp]`. */
  datatype Trial = Trial(current: real, frequency: real, lineOffset: real, lineAmplitude: real)

  /** The concatenation of `f(x)` for the elements `x` of `xs`, in order: what a
      loop over `xs` appending the output of `f` produces. */
  function FlatMap<X, T>(xs: seq<X>, f: X -> seq<T>): seq<T>
    decreases |xs|
  {
    if xs == [] then [] else FlatMap(xs[..|xs| - 1], f) + f(xs[|xs| - 1])
  }

  /** One more loop pass appends the next block. */
  lemma FlatMapExtend<X, T>(xs: seq<X>, f: X -> seq<T>, n: nat)
    requires n < |xs|
    ensures FlatMap(xs[..n + 1], f) == FlatMap(xs[..n], f) + f(xs[n])
  {
    assert xs[..n + 1][..n] == xs[..n];
  }

  /** The loop over the whole list gives the whole concatenation. */
  lemma FlatMapAll<X, T>(xs: seq<X>, f: X -> seq<T>)
    ensures FlatMap(xs[..|xs|], f) == FlatMap(xs, f)
  {
    assert xs[..|xs|] == xs;
  }

  /** When every `f(x)` has `m` elements, the concatenation has `|xs| * m`. */
  lemma {:induction false} FlatMapLength<X, T>(xs: seq<X>, f: X -> seq<T>, m: nat)
    requires forall x :: |f(x)| == m
    ensures |FlatMap(xs, f)| == |xs| * m
    decreases |xs|
  {
    if xs != [] {
      FlatMapLength(xs[..|xs| - 1], f, m);
      assert |xs| * m == (|xs| - 1) * m + m;
    }
  }

  /** Offsets inside blocks of equal length `m` stay below the total. */
  lemma BlockOffset(k: nat, l: nat, m: nat, n: nat)
    requires k < n && l < m
    ensures k * m + l < n * m
  {
    assert (k + 1) * m <= n * m;
  }

  /** When every `f(x)` has `m` elements, element `l` of block `k` sits at index
      `k * m + l` of the concatenation. */
  lemma {:induction false} FlatMapAt<X, T>(xs: seq<X>, f: X -> seq<T>, m: nat, k: nat, l: nat)
    requires forall x :: |f(x)| == m
    requires k < |xs| && l < m
    ensures k * m + l < |FlatMap(xs, f)|
    ensures FlatMap(xs, f)[k * m + l] == f(xs[k])[l]
    decreases |xs|
  {
    var n := |xs|;
    var init := xs[..n - 1];
    FlatMapLength(xs, f, m);
    FlatMapLength(init, f, m);
    BlockOffset(k, l, m, n);
    if k < n - 1 {
      BlockOffset(k, l, m, n - 1);
      FlatMapAt(init, f, m, k, l);
      assert init[k] == xs[k];
    } else {
      assert k * m + l == |FlatMap(init, f)| + l;
    }
  }

  /** When `t` occurs `c` times in `f(key)` and never in `f(x)` for any other
      `x`, it occurs `c` times for every copy of `key` in `xs`. */
  lemma {:induction false} FlatMapCount<X, T>(xs: seq<X>, f: X -> seq<T>, t: T, key: X, c: nat)
    requires forall x :: multiset(f(x))[t] == if x == key then c else 0
    ensures multiset(FlatMap(xs, f))[t] == multiset(xs)[key] * c
    decreases |xs|
  {
    if xs != [] {
      var init, last := xs[..|xs| - 1], xs[|xs| - 1];
      FlatMapCount(init, f, t, key, c);
      assert xs == init + [last];
      var before := multiset(init)[key];
      var hit := if last == key then 1 else 0;
      assert multiset(xs)[key] == before + hit;
      assert multiset(FlatMap(xs, f))[t] == before * c + hit * c;
      Distribute(before, hit, c);
    }
  }

  lemma Distribute(a: nat, b: nat, c: nat)
    ensures (a + b) * c == a * c + b * c
  {
  }

  // The four loop levels, innermost first.

  function TrialOf(curr: real, freq: real, lineMu: real): real -> seq<Trial>
  {
    lineAmp => [Trial(curr, freq, lineMu, lineAmp)]
  }

  function Row(curr: real, freq: real, lineMu: real, lineAmplitude: seq<real>): seq<Trial>
  {
    FlatMap(lineAmplitude, TrialOf(curr, freq, lineMu))
  }

  function RowOf(curr: real, freq: real, lineAmplitude: seq<real>): real -> seq<Trial>
  {
    lineMu => Row(curr, freq, lineMu, lineAmplitude)
  }

  function Block(curr: real, freq: real, lineOffset: seq<real>, lineAmplitude: seq<real>): seq<Trial>
  {
    FlatMap(lineOffset, RowOf(curr, freq, lineAmplitude))
  }

  function BlockOf(curr: real, lineOffset: seq<real>, lineAmplitude: seq<real>): real -> seq<Trial>
  {
    freq => Block(curr, freq, lineOffset, lineAmplitude)
  }

  function Plane(curr: real, frequency: seq<real>, lineOffset: seq<real>, lineAmplitude: seq<real>): seq<Trial>
  {
    FlatMap(frequency, BlockOf(curr, lineOffset, lineAmplitude))
  }

  function PlaneOf(frequency: seq<real>, lineOffset: seq<real>, lineAmplitude: seq<real>): real -> seq<Trial>
  {
    curr => Plane(curr, frequency, lineOffset, lineAmplitude)
  }

  /** The trial list before the shuffle.  It is empty exactly when one of
      the four lists is. */
  function Product(currentMa: seq<real>, frequency: seq<real>, lineOffset: seq<real>, lineAmplitude: seq<real>): (r: seq<Trial>)
    ensures r == [] <==> currentMa == [] || frequency == [] || lineOffset == [] || lineAmplitude == []
  {
    var F, O, A := |frequency|, |lineOffset|, |lineAmplitude|;
    Lengths(frequency, lineOffset, lineAmplitude);
    FlatMapLength(currentMa, PlaneOf(frequency, lineOffset, lineAmplitude), F * (O * A));
    PositiveProduct(O, A);
    PositiveProduct(F, O * A);
    PositiveProduct(|currentMa|, F * (O * A));
    FlatMap(currentMa, PlaneOf(frequency, lineOffset, lineAmplitude))
  }

  /** Every level has the product of the lengths of the lists below it. */
  lemma Lengths(frequency: seq<real>, lineOffset: seq<real>, lineAmplitude: seq<real>)
    ensures forall curr, freq, lineMu :: |Row(curr, freq, lineMu, lineAmplitude)| == |lineAmplitude|
    ensures forall curr, freq :: |Block(curr, freq, lineOffset, lineAmplitude)| == |lineOffset| * |lineAmplitude|
    ensures forall curr :: |Plane(curr, frequency, lineOffset, lineAmplitude)|
                           == |frequency| * (|lineOffset| * |lineAmplitude|)
  {
    forall curr, freq, lineMu
      ensures |Row(curr, freq, lineMu, lineAmplitude)| == |lineAmplitude|
    {
      FlatMapLength(lineAmplitude, TrialOf(curr, freq, lineMu), 1);
    }
    forall curr, freq
      ensures |Block(curr, freq, lineOffset, lineAmplitude)| == |lineOffset| * |lineAmplitude|
    {
      FlatMapLength(lineOffset, RowOf(curr, freq, lineAmplitude), |lineAmplitude|);
    }
    forall curr
      ensures |Plane(curr, frequency, lineOffset, lineAmplitude)| == |frequency| * (|lineOffset| * |lineAmplitude|)
    {
      FlatMapLength(frequency, BlockOf(curr, lineOffset, lineAmplitude), |lineOffset| * |lineAmplitude|);
    }
  }

  /** The trial list has one trial per combination: its length is the product
      of the four list lengths. */
  lemma ProductLength(currentMa: seq<real>, frequency: seq<real>, lineOffset: seq<real>, lineAmplitude: seq<real>)
    ensures |Product(currentMa, frequency, lineOffset, lineAmplitude)|
            == |currentMa| * |frequency| * |lineOffset| * |lineAmplitude|
  {
    Lengths(frequency, lineOffset, lineAmplitude);
    FlatMapLength(currentMa, PlaneOf(frequency, lineOffset, lineAmplitude),
                  |frequency| * (|lineOffset| * |lineAmplitude|));
    assert |currentMa| * (|frequency| * (|lineOffset| * |lineAmplitude|))
           == |currentMa| * |frequency| * |lineOffset| * |lineAmplitude|;
  }

  /** The nested order: the trial built from `currentMa[i]`, `frequency[j]`,
      `lineOffset[k]` and `lineAmplitude[l]` comes at position
      `((i * F + j) * O + k) * A + l`, F, O and A being the lengths of the inner
      lists, so the amplitude varies fastest and the current slowest. */
  lemma ProductAt(currentMa: seq<real>, frequency: seq<real>, lineOffset: seq<real>, lineAmplitude: seq<real>,
                  i: nat, j: nat, k: nat, l: nat)
    requires i < |currentMa| && j < |frequency| && k < |lineOffset| && l < |lineAmplitude|
    ensures var p := Product(currentMa, frequency, lineOffset, lineAmplitude);
            var index := ((i * |frequency| + j) * |lineOffset| + k) * |lineAmplitude| + l;
            index < |p| && p[index] == Trial(currentMa[i], frequency[j], lineOffset[k], lineAmplitude[l])
  {
    var F, O, A := |frequency|, |lineOffset|, |lineAmplitude|;
    var curr, freq, lineMu := currentMa[i], frequency[j], lineOffset[k];
    Lengths(frequency, lineOffset, lineAmplitude);
    RowAt(curr, freq, lineMu, lineAmplitude, l);
    var inBlock := k * A + l;
    BlockAt(curr, freq, lineOffset, lineAmplitude, k, l);
    var inPlane := j * (O * A) + inBlock;
    BlockOffset(k, l, A, O);
    PlaneAt(curr, frequency, lineOffset, lineAmplitude, j, inBlock);
    BlockOffset(j, inBlock, O * A, F);
    FlatMapAt(currentMa, PlaneOf(frequency, lineOffset, lineAmplitude), F * (O * A), i, inPlane);
    NestedIndex(i, j, k, l, F, O, A);
  }

  lemma RowAt(curr: real, freq: real, lineMu: real, lineAmplitude: seq<real>, l: nat)
    requires l < |lineAmplitude|
    ensures l < |Row(curr, freq, lineMu, lineAmplitude)|
    ensures Row(curr, freq, lineMu, lineAmplitude)[l] == Trial(curr, freq, lineMu, lineAmplitude[l])
  {
    FlatMapAt(lineAmplitude, TrialOf(curr, freq, lineMu), 1, l, 0);
  }

  lemma BlockAt(curr: real, freq: real, lineOffset: seq<real>, lineAmplitude: seq<real>, k: nat, l: nat)
    requires k < |lineOffset| && l < |lineAmplitude|
    ensures k * |lineAmplitude| + l < |Block(curr, freq, lineOffset, lineAmplitude)|
    ensures l < |Row(curr, freq, lineOffset[k], lineAmplitude)|
    ensures Block(curr, freq, lineOffset, lineAmplitude)[k * |lineAmplitude| + l]
            == Row(curr, freq, lineOffset[k], lineAmplitude)[l]
  {
    Lengths([], lineOffset, lineAmplitude);
    FlatMapAt(lineOffset, RowOf(curr, freq, lineAmplitude), |lineAmplitude|, k, l);
  }

  lemma PlaneAt(curr: real, frequency: seq<real>, lineOffset: seq<real>, lineAmplitude: seq<real>, j: nat, r: nat)
    requires j < |frequency| && r < |lineOffset| * |lineAmplitude|
    ensures j * (|lineOffset| * |lineAmplitude|) + r < |Plane(curr, frequency, lineOffset, lineAmplitude)|
    ensures r < |Block(curr, frequency[j], lineOffset, lineAmplitude)|
    ensures Plane(curr, frequency, lineOffset, lineAmplitude)[j * (|lineOffset| * |lineAmplitude|) + r]
            == Block(curr, frequency[j], lineOffset, lineAmplitude)[r]
  {
    Lengths(frequency, lineOffset, lineAmplitude);
    FlatMapAt(frequency, BlockOf(curr, lineOffset, lineAmplitude), |lineOffset| * |lineAmplitude|, j, r);
  }

  lemma NestedIndex(i: nat, j: nat, k: nat, l: nat, F: nat, O: nat, A: nat)
    ensures i * (F * (O * A)) + (j * (O * A) + (k * A + l)) == ((i * F + j) * O + k) * A + l
  {
    calc {
      ((i * F + j) * O + k) * A + l;
      == (i * F + j) * O * A + k * A + l;
      == (i * F * O + j * O) * A + k * A + l;
      == i * F * O * A + j * O * A + k * A + l;
    }
  }

  /** Each trial occurs once per way of drawing its four values from the four
      lists: duplicate values in a list are kept and multiply the trial. */
  lemma ProductCount(currentMa: seq<real>, frequency: seq<real>, lineOffset: seq<real>, lineAmplitude: seq<real>,
                     t: Trial)
    ensures multiset(Product(currentMa, frequency, lineOffset, lineAmplitude))[t]
            == multiset(currentMa)[t.current] * (multiset(frequency)[t.frequency]
               * (multiset(lineOffset)[t.lineOffset] * multiset(lineAmplitude)[t.lineAmplitude]))
  {
    var cF := multiset(frequency)[t.frequency]
              * (multiset(lineOffset)[t.lineOffset] * multiset(lineAmplitude)[t.lineAmplitude]);
    forall curr
      ensures multiset(PlaneOf(frequency, lineOffset, lineAmplitude)(curr))[t] == if curr == t.current then cF else 0
    {
      PlaneCount(curr, frequency, lineOffset, lineAmplitude, t);
    }
    FlatMapCount(currentMa, PlaneOf(frequency, lineOffset, lineAmplitude), t, t.current, cF);
  }

  lemma RowCount(curr: real, freq: real, lineMu: real, lineAmplitude: seq<real>, t: Trial)
    ensures multiset(Row(curr, freq, lineMu, lineAmplitude))[t]
            == if curr == t.current && freq == t.frequency && lineMu == t.lineOffset
               then multiset(lineAmplitude)[t.lineAmplitude] else 0
  {
    var c := if curr == t.current && freq == t.frequency && lineMu == t.lineOffset then 1 else 0;
    FlatMapCount(lineAmplitude, TrialOf(curr, freq, lineMu), t, t.lineAmplitude, c);
  }

  lemma BlockCount(curr: real, freq: real, lineOffset: seq<real>, lineAmplitude: seq<real>, t: Trial)
    ensures multiset(Block(curr, freq, lineOffset, lineAmplitude))[t]
            == if curr == t.current && freq == t.frequency
               then multiset(lineOffset)[t.lineOffset] * multiset(lineAmplitude)[t.lineAmplitude] else 0
  {
    var c := if curr == t.current && freq == t.frequency then multiset(lineAmplitude)[t.lineAmplitude] else 0;
    forall lineMu
      ensures multiset(RowOf(curr, freq, lineAmplitude)(lineMu))[t] == if lineMu == t.lineOffset then c else 0
    {
      RowCount(curr, freq, lineMu, lineAmplitude, t);
    }
    FlatMapCount(lineOffset, RowOf(curr, freq, lineAmplitude), t, t.lineOffset, c);
  }

  lemma PlaneCount(curr: real, frequency: seq<real>, lineOffset: seq<real>, lineAmplitude: seq<real>, t: Trial)
    ensures multiset(Plane(curr, frequency, lineOffset, lineAmplitude))[t]
            == if curr == t.current
               then multiset(frequency)[t.frequency]
                    * (multiset(lineOffset)[t.lineOffset] * multiset(lineAmplitude)[t.lineAmplitude])
               else 0
  {
    var c := if curr == t.current
             then multiset(lineOffset)[t.lineOffset] * multiset(lineAmplitude)[t.lineAmplitude] else 0;
    forall freq
      ensures multiset(BlockOf(curr, lineOffset, lineAmplitude)(freq))[t] == if freq == t.frequency then c else 0
    {
      BlockCount(curr, freq, lineOffset, lineAmplitude, t);
    }
    FlatMapCount(frequency, BlockOf(curr, lineOffset, lineAmplitude), t, t.frequency, c);
  }

  /** A trial is in the list exactly when each of its four values is in its own
      list. */
  lemma ProductMembers(currentMa: seq<real>, frequency: seq<real>, lineOffset: seq<real>, lineAmplitude: seq<real>,
                       t: Trial)
    ensures t in Product(currentMa, frequency, lineOffset, lineAmplitude)
            <==> t.current in currentMa && t.frequency in frequency
                 && t.lineOffset in lineOffset && t.lineAmplitude in lineAmplitude
  {
    ProductCount(currentMa, frequency, lineOffset, lineAmplitude, t);
    var a, b, c, d := multiset(currentMa)[t.current], multiset(frequency)[t.frequency],
                      multiset(lineOffset)[t.lineOffset], multiset(lineAmplitude)[t.lineAmplitude];
    PositiveProduct(c, d);
    PositiveProduct(b, c * d);
    PositiveProduct(a, b * (c * d));
  }

  /** A product of two counts is positive exactly when both are. */
  lemma PositiveProduct(a: nat, b: nat)
    ensures a * b > 0 <==> a > 0 && b > 0
  {
    if a > 0 && b > 0 {
      assert a * b >= b;
    }
  }

  /** What survives a shuffle of the trial list: its length and its members. */
  lemma Shuffled(currentMa: seq<real>, frequency: seq<real>, lineOffset: seq<real>, lineAmplitude: seq<real>,
                 shuffled: seq<Trial>)
    requires multiset(shuffled) == multiset(Product(currentMa, frequency, lineOffset, lineAmplitude))
    ensures |shuffled| == |currentMa| * |frequency| * |lineOffset| * |lineAmplitude|
    ensures forall t :: t in shuffled <==> (t.current in currentMa && t.frequency in frequency
                                           && t.lineOffset in lineOffset && t.lineAmplitude in lineAmplitude)
  {
    var ordered := Product(currentMa, frequency, lineOffset, lineAmplitude);
    ProductLength(currentMa, frequency, lineOffset, lineAmplitude);
    assert |shuffled| == |multiset(shuffled)| == |multiset(ordered)| == |ordered|;
    forall t
      ensures t in shuffled <==> (t.current in currentMa && t.frequency in frequency
                                 && t.lineOffset in lineOffset && t.lineAmplitude in lineAmplitude)
    {
      assert t in shuffled <==> t in multiset(shuffled);
      assert t in ordered <==> t in multiset(ordered);
      ProductMembers(currentMa, frequency, lineOffset, lineAmplitude, t);
    }
  }

  class RandStim {
    var trialList: seq<Trial>

    /** Builds every combination in nested order and shuffles the list. */
    constructor (currentMa: seq<real>, frequency: seq<real>, lineOffset: seq<real>, lineAmplitude: seq<real>)
      ensures multiset(trialList) == multiset(Product(currentMa, frequency, lineOffset, lineAmplitude))
      ensures GetNTrials() == |currentMa| * |frequency| * |lineOffset| * |lineAmplitude|
      ensures forall t :: t in trialList <==> (t.current in currentMa && t.frequency in frequency
                                              && t.lineOffset in lineOffset && t.lineAmplitude in lineAmplitude)
    {
      trialList := [];
      new;
      for i := 0 to |currentMa|
        invariant trialList == Product(currentMa[..i], frequency, lineOffset, lineAmplitude)
      {
        var curr := currentMa[i];
        ghost var plane := trialList;
        for j := 0 to |frequency|
          invariant trialList == plane + Plane(curr, frequency[..j], lineOffset, lineAmplitude)
        {
          AppendBlock(curr, frequency[j], lineOffset, lineAmplitude);
          FlatMapExtend(frequency, BlockOf(curr, lineOffset, lineAmplitude), j);
        }
        FlatMapAll(frequency, BlockOf(curr, lineOffset, lineAmplitude));
        FlatMapExtend(currentMa, PlaneOf(frequency, lineOffset, lineAmplitude), i);
      }
      FlatMapAll(currentMa, PlaneOf(frequency, lineOffset, lineAmplitude));
      var ordered := trialList;
      // shuffle: any permutation of the list
      var shuffled :| multiset(shuffled) == multiset(ordered);
      trialList := shuffled;
      Shuffled(currentMa, frequency, lineOffset, lineAmplitude, shuffled);
    }

    /** The two inner loops of the constructor: appends, for one current and
        one frequency, a trial per line offset and line amplitude. */
    method AppendBlock(curr: real, freq: real, lineOffset: seq<real>, lineAmplitude: seq<real>)
      modifies this
      ensures trialList == old(trialList) + Block(curr, freq, lineOffset, lineAmplitude)
    {
      for k := 0 to |lineOffset|
        invariant trialList == old(trialList) + Block(curr, freq, lineOffset[..k], lineAmplitude)
      {
        var lineMu := lineOffset[k];
        ghost var row := trialList;
        for l := 0 to |lineAmplitude|
          invariant trialList == row + Row(curr, freq, lineMu, lineAmplitude[..l])
        {
          FlatMapExtend(lineAmplitude, TrialOf(curr, freq, lineMu), l);
          trialList := trialList + [Trial(curr, freq, lineMu, lineAmplitude[l])];
        }
        FlatMapAll(lineAmplitude, TrialOf(curr, freq, lineMu));
        FlatMapExtend(lineOffset, RowOf(curr, freq, lineAmplitude), k);
      }
      FlatMapAll(lineOffset, RowOf(curr, freq, lineAmplitude));
    }

    /** `get_stimulus`: the trial at `trialNr`, with Python's indexing from the
        end for a negative index; None for the IndexError of an index out of
        range. */
    function GetStimulus(trialNr: int): (r: Option<Trial>)
      reads this
      ensures r.Some? <==> -|trialList| <= trialNr < |trialList|
      ensures 0 <= trialNr < |trialList| ==> r == Some(trialList[trialNr])
      ensures r.Some? && trialNr < 0 ==> r == Some(trialList[|trialList| + trialNr])
      ensures r.Some? ==> r.value in trialList
    {
      if 0 <= trialNr < |trialList| then Some(trialList[trialNr])
      else if -|trialList| <= trialNr < 0 then Some(trialList[|trialList| + trialNr])
      else None
    }

    /** `get_n_trials`: the number of trials in the list. */
    function GetNTrials(): (n: nat)
      reads this
      ensures n == |trialList|
    {
      |trialList|
    }
  }
}
