/** The linear exchange-rate model of kengine/xcrates.py: every output moves away from its
    reference value by a fixed rate times the change of each input from its own reference value.
    An `XRates` object is never changed after `__init__`, so it is a value here. */
module ExchangeRates {
  import opened Outcomes
  import Engines

  /** An `XRates` object: the reference inputs and outputs, the input names in rate order, and
      a row of rates per output. `outputOrder` is the iteration order of `outputs_orig`. */
  datatype XRates = XRates(inputsOrig: map<string, real>, outputsOrig: map<string, real>,
                           outputOrder: seq<string>, xheader: seq<string>,
                           xrates: map<string, seq<real>>)
  {
    /** What `__init__` guarantees of every object it returns. */
    ghost predicate Valid()
    {
      && Engines.Ordered(outputOrder, outputsOrig)
      && (forall n :: n in xheader <==> n in inputsOrig)
    }
  }

  /** `XRates.__init__`: the rate header must name exactly the reference inputs. */
  function Create(inputsOrig: map<string, real>, outputsOrig: map<string, real>, outputOrder: seq<string>,
                  xheader: seq<string>, xrates: map<string, seq<real>>): (r: Result<XRates>)
    requires Engines.Ordered(outputOrder, outputsOrig)
    ensures r.Ok? <==> (set n | n in xheader) == inputsOrig.Keys
    ensures r.Err? ==> r.error == AssertionError("rate header must name the model inputs")
    ensures r.Ok? ==> r.value.Valid() && r.value == XRates(inputsOrig, outputsOrig, outputOrder, xheader, xrates)
  {
    if (set n | n in xheader) == inputsOrig.Keys then
      Ok(XRates(inputsOrig, outputsOrig, outputOrder, xheader, xrates))
    else
      Err(AssertionError("rate header must name the model inputs"))
  }

  /** The change of output `o` that the first `n` inputs of the header contribute. */
  function Shift(x: XRates, inputs: map<string, real>, o: string, n: nat): (r: real)
    requires x.Valid() && inputs.Keys == x.inputsOrig.Keys && n <= |x.xheader|
    requires n == 0 || (o in x.xrates && n <= |x.xrates[o]|)
    ensures inputs == x.inputsOrig ==> r == 0.0
  {
    if n == 0 then 0.0
    else
      var name := x.xheader[n - 1];
      assert name in x.xheader;
      Shift(x, inputs, o, n - 1) + x.xrates[o][n - 1] * (inputs[name] - x.inputsOrig[name])
  }

  /** Output `o` at `inputs`: a missing or short row of rates raises, but only once some input
      is there to be weighed. */
  function Output(x: XRates, inputs: map<string, real>, o: string): (r: Result<real>)
    requires x.Valid() && inputs.Keys == x.inputsOrig.Keys && o in x.outputsOrig
    ensures r.Ok? <==> |x.xheader| == 0 || (o in x.xrates && |x.xrates[o]| >= |x.xheader|)
    ensures |x.xheader| > 0 && o !in x.xrates ==> r == Err(KeyError(o))
    ensures inputs == x.inputsOrig && r.Ok? ==> r.value == x.outputsOrig[o]
  {
    if |x.xheader| > 0 && o !in x.xrates then Err(KeyError(o))
    else if |x.xheader| > 0 && |x.xrates[o]| < |x.xheader| then Err(IndexError("list index out of range"))
    else Ok(x.outputsOrig[o] + Shift(x, inputs, o, |x.xheader|))
  }

  /** The outputs named by `order`, in order; the first one that raises ends the computation. */
  function Outputs(x: XRates, inputs: map<string, real>, order: seq<string>): (r: Result<map<string, real>>)
    requires x.Valid() && inputs.Keys == x.inputsOrig.Keys
    requires forall o :: o in order ==> o in x.outputsOrig
    ensures r.Ok? ==> forall o :: o in r.value <==> o in order
    decreases |order|
  {
    if order == [] then Ok(map[])
    else
      var front, last := order[..|order| - 1], order[|order| - 1];
      assert forall o :: o in order <==> o in front || o == last;
      var m :- Outputs(x, inputs, front);
      var v :- Output(x, inputs, last);
      Ok(m[last := v])
  }

  /** What `calculate(inputs)` returns. */
  function Calculated(x: XRates, inputs: map<string, real>): (r: Result<map<string, real>>)
    requires x.Valid()
    ensures inputs.Keys != x.inputsOrig.Keys ==> r == Err(AssertionError("inputs must match the model inputs"))
  {
    if inputs.Keys != x.inputsOrig.Keys then Err(AssertionError("inputs must match the model inputs"))
    else Outputs(x, inputs, x.outputOrder)
  }

  /** The outputs of `order` hold an entry for every name of `order` and nothing else, each the
      value of that output; they raise exactly when some output does. */
  lemma {:induction false} OutputsMeaning(x: XRates, inputs: map<string, real>, order: seq<string>)
    requires x.Valid() && inputs.Keys == x.inputsOrig.Keys
    requires forall o :: o in order ==> o in x.outputsOrig
    ensures var r := Outputs(x, inputs, order);
            && (r.Ok? <==> forall o :: o in order ==> Output(x, inputs, o).Ok?)
            && (r.Ok? ==> forall o :: o in r.value <==> o in order)
            && (r.Ok? ==> forall o :: o in order ==> Output(x, inputs, o) == Ok(r.value[o]))
    decreases |order|
  {
    if order != [] {
      var front := order[..|order| - 1];
      assert forall o :: o in order <==> o in front || o == order[|order| - 1];
      OutputsMeaning(x, inputs, front);
    }
  }

  /** When the inputs line up, `calculate` returns exactly the reference outputs' names, each
      shifted by the weighted input changes; it raises only when some output's rates do. */
  lemma CalculatedMeaning(x: XRates, inputs: map<string, real>)
    requires x.Valid() && inputs.Keys == x.inputsOrig.Keys
    ensures var r := Calculated(x, inputs);
            && (r.Ok? <==> forall o :: o in x.outputsOrig ==> Output(x, inputs, o).Ok?)
            && (r.Ok? ==> r.value.Keys == x.outputsOrig.Keys)
            && (r.Ok? ==> forall o :: o in x.outputsOrig ==>
                  r.value[o] == x.outputsOrig[o] + Shift(x, inputs, o, |x.xheader|))
  {
    OutputsMeaning(x, inputs, x.outputOrder);
    var r := Calculated(x, inputs);
    if r.Ok? {
      forall o | o in x.outputsOrig
        ensures r.value[o] == x.outputsOrig[o] + Shift(x, inputs, o, |x.xheader|)
      {
        assert Output(x, inputs, o) == Ok(r.value[o]);
      }
    }
  }

  /** Every row of rates is long enough for the header. */
  ghost predicate RatesComplete(x: XRates)
  {
    |x.xheader| == 0 || forall o :: o in x.outputsOrig ==> o in x.xrates && |x.xrates[o]| >= |x.xheader|
  }

  /** At the reference inputs, `calculate` returns the reference outputs. */
  lemma AtOrigin(x: XRates)
    requires x.Valid() && RatesComplete(x)
    ensures Calculated(x, x.inputsOrig) == Ok(x.outputsOrig)
  {
    CalculatedMeaning(x, x.inputsOrig);
    var r := Calculated(x, x.inputsOrig);
    assert r.value == x.outputsOrig;
  }

  /** Raising the `i`-th header input by `d` changes the contribution of the first `n` inputs
      by the `i`-th rate times `d`, once `i` is among them and names no other input. */
  lemma {:induction false} ShiftBump(x: XRates, inputs: map<string, real>, o: string, n: nat, i: nat, d: real)
    requires x.Valid() && inputs.Keys == x.inputsOrig.Keys && n <= |x.xheader| && i < |x.xheader|
    requires n == 0 || (o in x.xrates && n <= |x.xrates[o]|)
    requires forall j :: 0 <= j < |x.xheader| && j != i ==> x.xheader[j] != x.xheader[i]
    ensures x.xheader[i] in inputs
    ensures var name := x.xheader[i];
            var bumped := inputs[name := inputs[name] + d];
            Shift(x, bumped, o, n) == Shift(x, inputs, o, n) + (if i < n then x.xrates[o][i] * d else 0.0)
  {
    assert x.xheader[i] in x.xheader;
    if n > 0 {
      ShiftBump(x, inputs, o, n - 1, i, d);
    }
  }

  /** The inputs with input `name` raised by `d`. */
  function Bumped(inputs: map<string, real>, name: string, d: real): (r: map<string, real>)
    requires name in inputs
    ensures r.Keys == inputs.Keys && r[name] == inputs[name] + d
    ensures forall n :: n in inputs && n != name ==> r[n] == inputs[n]
  {
    inputs[name := inputs[name] + d]
  }

  /** With every header name used once, raising one input by `d` moves each output by exactly
      its rate for that input times `d`. */
  lemma SingleInput(x: XRates, inputs: map<string, real>, i: nat, d: real)
    requires x.Valid() && inputs.Keys == x.inputsOrig.Keys && RatesComplete(x) && i < |x.xheader|
    requires forall j, k :: 0 <= j < k < |x.xheader| ==> x.xheader[j] != x.xheader[k]
    ensures x.xheader[i] in inputs
    ensures var before, after := Calculated(x, inputs), Calculated(x, Bumped(inputs, x.xheader[i], d));
            && before.Ok? && after.Ok?
            && before.value.Keys == after.value.Keys == x.outputsOrig.Keys
            && forall o :: o in x.outputsOrig ==> after.value[o] == before.value[o] + x.xrates[o][i] * d
  {
    var name := x.xheader[i];
    assert name in x.xheader;
    var bumped := Bumped(inputs, name, d);
    assert bumped == inputs[name := inputs[name] + d];
    CalculatedMeaning(x, inputs);
    CalculatedMeaning(x, bumped);
    forall o | o in x.outputsOrig
      ensures Shift(x, bumped, o, |x.xheader|) == Shift(x, inputs, o, |x.xheader|) + x.xrates[o][i] * d
    {
      forall j | 0 <= j < |x.xheader| && j != i
        ensures x.xheader[j] != x.xheader[i]
      {
        if j < i {
          assert x.xheader[j] != x.xheader[i];
        } else {
          assert x.xheader[i] != x.xheader[j];
        }
      }
      ShiftBump(x, inputs, o, |x.xheader|, i, d);
    }
  }

  /** The outputs of the first `n` names of the output order: `Outputs` as the loop of
      `calculate` sees it, one output at a time. */
  function OutputsUpTo(x: XRates, inputs: map<string, real>, n: nat): (r: Result<map<string, real>>)
    requires x.Valid() && inputs.Keys == x.inputsOrig.Keys && n <= |x.outputOrder|
  {
    assert forall o :: o in x.outputOrder[..n] ==> o in x.outputOrder;
    Outputs(x, inputs, x.outputOrder[..n])
  }

  /** Once the outputs of a prefix of `order` raise, the whole of `order` raises the same way. */
  lemma {:induction false} OutputsStop(x: XRates, inputs: map<string, real>, order: seq<string>, k: nat)
    requires x.Valid() && inputs.Keys == x.inputsOrig.Keys
    requires forall o :: o in order ==> o in x.outputsOrig
    requires k <= |order| && Outputs(x, inputs, order[..k]).Err?
    ensures Outputs(x, inputs, order) == Outputs(x, inputs, order[..k])
    decreases |order|
  {
    if k < |order| {
      var front := order[..|order| - 1];
      assert front[..k] == order[..k];
      assert forall o :: o in front ==> o in order;
      OutputsStop(x, inputs, front, k);
    } else {
      assert order[..k] == order;
    }
  }

  /** The inner loop of `calculate`: output `o` accumulated input by input. */
  method Accumulate(x: XRates, inputs: map<string, real>, o: string) returns (r: Result<real>)
    requires x.Valid() && inputs.Keys == x.inputsOrig.Keys && o in x.outputsOrig
    ensures r == Output(x, inputs, o)
  {
    var result := x.outputsOrig[o];
    var index := 0;
    while index < |x.xheader|
      invariant 0 <= index <= |x.xheader|
      invariant index == 0 || (o in x.xrates && index <= |x.xrates[o]|)
      invariant result == x.outputsOrig[o] + Shift(x, inputs, o, index)
    {
      var name := x.xheader[index];
      assert name in x.xheader;
      var ival0 := x.inputsOrig[name];
      var ival := inputs[name];
      if o !in x.xrates {
        return Err(KeyError(o));
      }
      if index >= |x.xrates[o]| {
        return Err(IndexError("list index out of range"));
      }
      result := result + x.xrates[o][index] * (ival - ival0);
      index := index + 1;
    }
    r := Ok(result);
  }

  /** `calculate(inputs)`. */
  method Calculate(x: XRates, inputs: map<string, real>) returns (r: Result<map<string, real>>)
    requires x.Valid()
    ensures r == Calculated(x, inputs)
  {
    if inputs.Keys != x.inputsOrig.Keys {
      return Err(AssertionError("inputs must match the model inputs"));
    }
    var outputs := map[];
    var i := 0;
    while i < |x.outputOrder|
      invariant 0 <= i <= |x.outputOrder|
      invariant OutputsUpTo(x, inputs, i) == Ok(outputs)
    {
      var o := x.outputOrder[i];
      assert o in x.outputOrder;
      assert x.outputOrder[..i + 1][..i] == x.outputOrder[..i];
      var v := Accumulate(x, inputs, o);
      if v.Err? {
        OutputsStop(x, inputs, x.outputOrder, i + 1);
        return Err(v.error);
      }
      outputs := outputs[o := v.value];
      i := i + 1;
    }
    assert x.outputOrder[..i] == x.outputOrder;
    r := Ok(outputs);
  }
}
