/** The Newton solver of kengine/solver.py. Targets that name an input alias are written straight
    to the engine; the remaining targets are met by moving the solver's variables, starting from
    their start values, with a finite-difference Jacobian and a linear solve per iteration. The
    engine's `calculate` and numpy's `tensorsolve` are parameters of the model. */
module Newton {
  import opened Outcomes
  import Engines

  /** How the solver moves one variable: its finite-difference step and its start value. */
  datatype Setting = Setting(perturbation: real, sval: real)

  /** `conv_crit`: an error must be strictly smaller in magnitude. */
  const ConvCrit: real := 0.000001

  /** `iter_limit`. */
  const IterLimit: nat := 100

  /** `isconverged`. */
  predicate IsConverged(errors: map<string, real>)
  {
    forall z :: z in errors ==> Abs(errors[z]) < ConvCrit
  }

  /** The errors have converged exactly when every one lies strictly inside the band of
      width `ConvCrit` around zero: one error on the edge or outside it, of either sign,
      keeps the loop going, and no errors at all have converged. */
  lemma ConvergenceIsStrict(errors: map<string, real>)
    ensures IsConverged(errors) <==> forall z :: z in errors ==> -ConvCrit < errors[z] < ConvCrit
    ensures (exists z :: z in errors && Abs(errors[z]) >= ConvCrit) ==> !IsConverged(errors)
    ensures errors == map[] ==> IsConverged(errors)
  {
  }

  /** The error of each name, its target less its result: the first name the results lack
      raises KeyError. */
  function Errors(targets: map<string, real>, names: seq<string>, results: map<string, real>): (r: Result<map<string, real>>)
    requires forall z :: z in names ==> z in targets
    ensures r.Ok? ==> forall z :: z in names ==> z in r.value
    decreases |names|
  {
    if names == [] then Ok(map[])
    else if names[0] !in results then Err(KeyError(names[0]))
    else
      var rest :- Errors(targets, names[1..], results);
      Ok(rest[names[0] := targets[names[0]] - results[names[0]]])
  }

  /** The errors are keyed by the names, each the target less the result; they raise exactly
      when a name has no result, with the first such name. */
  lemma {:induction false} ErrorsMeaning(targets: map<string, real>, names: seq<string>, results: map<string, real>)
    requires forall z :: z in names ==> z in targets
    ensures var r := Errors(targets, names, results);
            && (r.Ok? <==> forall z :: z in names ==> z in results)
            && (r.Ok? ==> forall z :: z in r.value <==> z in names)
            && (r.Ok? ==> forall z :: z in names ==> r.value[z] == targets[z] - results[z])
            && (r.Err? ==> exists k :: 0 <= k < |names| && names[k] !in results && r.error == KeyError(names[k])
                                       && forall j :: 0 <= j < k ==> names[j] in results)
    decreases |names|
  {
    if names != [] && names[0] in results {
      ErrorsMeaning(targets, names[1..], results);
      assert forall z :: z in names <==> z == names[0] || z in names[1..];
      var r := Errors(targets, names[1..], results);
      if r.Err? {
        var k :| 0 <= k < |names[1..]| && names[1..][k] !in results && r.error == KeyError(names[1..][k])
                 && forall j :: 0 <= j < k ==> names[1..][j] in results;
        assert names[k + 1] == names[1..][k];
        assert forall j :: 1 <= j < k + 1 ==> names[j] == names[1..][j - 1];
      }
    }
  }

  /** The errors as `solve` computes them: over every target, the ones written straight to an
      input alias included. */
  function ErrorsAsWritten(targets: map<string, real>, order: seq<string>, results: map<string, real>): (r: Result<map<string, real>>)
    requires Engines.Ordered(order, targets)
    ensures r.Ok? ==> r.value.Keys == targets.Keys
  {
    ErrorsMeaning(targets, order, results);
    Errors(targets, order, results)
  }

  /** A TurboJet solve for a turbine entry temperature 'RIT' (an input alias) and a thrust:
      the results are keyed by output alias only, so the error of 'RIT' raises KeyError, while
      the errors of the targets left to the solver are well defined. */
  lemma DirectTargetRaises()
    ensures var results := map["SFC" := 0.00002, "THRUST" := 9000.0];
            && ErrorsAsWritten(map["RIT" := 1600.0, "THRUST" := 10000.0], ["RIT", "THRUST"], results)
               == Err(KeyError("RIT"))
            && Errors(map["THRUST" := 10000.0], ["THRUST"], results) == Ok(map["THRUST" := 1000.0])
  {
    var results := map["SFC" := 0.00002, "THRUST" := 9000.0];
    assert "RIT" !in results;
    var rest := Errors(map["THRUST" := 10000.0], ["THRUST"][1..], results);
    assert rest == Ok(map[]);
  }

  /** `current_values.copy()` with variable `x` moved by `h`. */
  function Perturbed(values: map<string, real>, x: string, h: real): (r: map<string, real>)
    requires x in values
    ensures r.Keys == values.Keys && r[x] == values[x] + h
    ensures forall y :: y in values && y != x ==> r[y] == values[y]
  {
    values[x := values[x] + h]
  }

  /** One `gradient_row`: for every target name, in order, the change of its output over the
      perturbation `h`;
      a missing output raises KeyError and a zero perturbation ZeroDivisionError. */
  function GradientRow(zs: seq<string>, outputs: map<string, real>, defaults: map<string, real>, h: real): (r: Result<map<string, real>>)
    ensures r.Ok? ==> forall z :: z in zs ==> z in r.value
    decreases |zs|
  {
    if zs == [] then Ok(map[])
    else
      var row :- GradientRow(zs[..|zs| - 1], outputs, defaults, h);
      var z := zs[|zs| - 1];
      if z !in outputs || z !in defaults then Err(KeyError(z))
      else
        var q :- Div(outputs[z] - defaults[z], h);
        assert forall y :: y in zs ==> y in zs[..|zs| - 1] || y == z;
        Ok(row[z := q])
  }

  /** A row holds exactly the target names, each the difference quotient of its output; it
      raises exactly when an output or a default is missing, or when the step is zero. */
  lemma {:induction false} GradientRowMeaning(zs: seq<string>, outputs: map<string, real>, defaults: map<string, real>, h: real)
    ensures var r := GradientRow(zs, outputs, defaults, h);
            && (r.Ok? <==> (forall z :: z in zs ==> z in outputs && z in defaults) && (h != 0.0 || zs == []))
            && (r.Ok? ==> forall z :: z in r.value <==> z in zs)
            && (r.Ok? ==> forall z :: z in zs ==> r.value[z] == (outputs[z] - defaults[z]) / h)
    decreases |zs|
  {
    if zs != [] {
      var front := zs[..|zs| - 1];
      GradientRowMeaning(front, outputs, defaults, h);
      assert forall y :: y in zs <==> y in front || y == zs[|zs| - 1];
    }
  }

  /** Once a target fails, the later targets of the row are never looked at. */
  lemma {:induction false} GradientRowStops(zs: seq<string>, outputs: map<string, real>, defaults: map<string, real>, h: real, k: nat)
    requires k <= |zs| && GradientRow(zs[..k], outputs, defaults, h).Err?
    ensures GradientRow(zs, outputs, defaults, h) == GradientRow(zs[..k], outputs, defaults, h)
    decreases |zs|
  {
    if k < |zs| {
      var front := zs[..|zs| - 1];
      assert front[..k] == zs[..k];
      GradientRowStops(front, outputs, defaults, h, k);
    } else {
      assert zs[..k] == zs;
    }
  }

  /** Every variable has a row holding every target name. */
  predicate Shaped(g: map<string, map<string, real>>, xs: seq<string>, zs: seq<string>)
  {
    forall x :: x in xs ==> x in g && forall z :: z in zs ==> z in g[x]
  }

  /** The Jacobian of `next_iteration`: a row per target, a column per variable. */
  function Matrix(g: map<string, map<string, real>>, xs: seq<string>, zs: seq<string>): (m: seq<seq<real>>)
    requires Shaped(g, xs, zs)
    ensures |m| == |zs|
    ensures forall i :: 0 <= i < |zs| ==> |m[i]| == |xs| && forall j :: 0 <= j < |xs| ==> m[i][j] == g[xs[j]][zs[i]]
  {
    seq(|zs|, i requires 0 <= i < |zs| => seq(|xs|, j requires 0 <= j < |xs| => g[xs[j]][zs[i]]))
  }

  /** The error vector of `next_iteration`: the errors listed in target order. */
  function ErrorVector(errors: map<string, real>, zs: seq<string>): (e: seq<real>)
    requires forall z :: z in zs ==> z in errors
    ensures |e| == |zs| && forall i :: 0 <= i < |zs| ==> e[i] == errors[zs[i]]
  {
    seq(|zs|, i requires 0 <= i < |zs| => errors[zs[i]])
  }

  /** The corrections of `next_iteration`: the solution's entries keyed by variable, in order. */
  function Corrections(xs: seq<string>, d: seq<real>): (c: map<string, real>)
    requires |d| >= |xs| && forall i, j :: 0 <= i < j < |xs| ==> xs[i] != xs[j]
    ensures forall x :: x in c <==> x in xs
    ensures forall j :: 0 <= j < |xs| ==> c[xs[j]] == d[j]
  {
    map j | 0 <= j < |xs| :: xs[j] := d[j]
  }

  /** The pure half of `next_iteration`: the matrix and the error vector go to the linear
      solve, and its answer is keyed back to the variables by position. */
  function Step(g: map<string, map<string, real>>, xs: seq<string>, zs: seq<string>, errors: map<string, real>,
                solve: (seq<seq<real>>, seq<real>) -> Option<seq<real>>): (r: Result<map<string, real>>)
    requires Shaped(g, xs, zs) && Engines.Ordered(xs, g) && forall z :: z in zs ==> z in errors
    ensures r.Ok? ==> forall x :: x in r.value <==> x in xs
  {
    if |xs| == 0 then Err(IndexError("list index out of range"))
    else
      match solve(Matrix(g, xs, zs), ErrorVector(errors, zs))
      case None => Err(LinAlgError)
      case Some(d) =>
        if |d| < |xs| then Err(IndexError("index out of bounds")) else Ok(Corrections(xs, d))
  }

  /** No variables raise at `xs[0]`; a singular system raises LinAlgError; otherwise the
      correction of the `j`-th variable is the `j`-th entry of the solution. */
  lemma StepMeaning(g: map<string, map<string, real>>, xs: seq<string>, zs: seq<string>, errors: map<string, real>,
                    solve: (seq<seq<real>>, seq<real>) -> Option<seq<real>>)
    requires Shaped(g, xs, zs) && Engines.Ordered(xs, g) && forall z :: z in zs ==> z in errors
    ensures var r := Step(g, xs, zs, errors, solve);
            var s := solve(Matrix(g, xs, zs), ErrorVector(errors, zs));
            && (|xs| == 0 ==> r == Err(IndexError("list index out of range")))
            && (s.None? && |xs| > 0 ==> r == Err(LinAlgError))
            && (r.Ok? ==> s.Some? && |s.value| >= |xs| && forall j :: 0 <= j < |xs| ==> r.value[xs[j]] == s.value[j])
  {
  }

  function Dot(a: seq<real>, b: seq<real>): real
    requires |a| == |b|
    decreases |a|
  {
    if a == [] then 0.0 else a[0] * b[0] + Dot(a[1..], b[1..])
  }

  function MatVec(m: seq<seq<real>>, d: seq<real>): (r: seq<real>)
    requires forall i :: 0 <= i < |m| ==> |m[i]| == |d|
    ensures |r| == |m| && forall i :: 0 <= i < |m| ==> r[i] == Dot(m[i], d)
  {
    seq(|m|, i requires 0 <= i < |m| => Dot(m[i], d))
  }

  /** The change of target `z` that the gradients predict for the corrections `c`. */
  function Predicted(g: map<string, map<string, real>>, xs: seq<string>, z: string, c: map<string, real>): real
    requires forall x :: x in xs ==> x in g && z in g[x] && x in c
    decreases |xs|
  {
    if xs == [] then 0.0 else g[xs[0]][z] * c[xs[0]] + Predicted(g, xs[1..], z, c)
  }

  lemma {:induction false} PredictedIsDot(g: map<string, map<string, real>>, xs: seq<string>, z: string,
                                          c: map<string, real>, row: seq<real>, d: seq<real>)
    requires forall x :: x in xs ==> x in g && z in g[x] && x in c
    requires |row| == |xs| && |d| == |xs|
    requires forall j :: 0 <= j < |xs| ==> row[j] == g[xs[j]][z] && c[xs[j]] == d[j]
    ensures Predicted(g, xs, z, c) == Dot(row, d)
    decreases |xs|
  {
    if xs != [] {
      PredictedIsDot(g, xs[1..], z, c, row[1..], d[1..]);
    }
  }

  /** When the linear solve is exact, the corrections cancel every target's error to first
      order: the matrix rows are the targets, its columns the variables, and the answer is keyed
      back to the variables in the column order. */
  lemma NewtonStep(g: map<string, map<string, real>>, xs: seq<string>, zs: seq<string>,
                   errors: map<string, real>, d: seq<real>)
    requires Shaped(g, xs, zs) && Engines.Ordered(xs, g) && forall z :: z in zs ==> z in errors
    requires |d| == |xs| && MatVec(Matrix(g, xs, zs), d) == ErrorVector(errors, zs)
    ensures forall i :: 0 <= i < |zs| ==> Predicted(g, xs, zs[i], Corrections(xs, d)) == errors[zs[i]]
  {
    var c := Corrections(xs, d);
    var m := Matrix(g, xs, zs);
    forall i | 0 <= i < |zs| ensures Predicted(g, xs, zs[i], c) == errors[zs[i]] {
      PredictedIsDot(g, xs, zs[i], c, m[i], d);
      assert MatVec(m, d)[i] == ErrorVector(errors, zs)[i];
    }
  }

  /** The names of `order` that are input aliases (`keep`), or that are not (`!keep`), in order. */
  function Select(order: seq<string>, aliases: set<string>, keep: bool): (r: seq<string>)
    ensures |r| <= |order|
  {
    if order == [] then []
    else
      var last := order[|order| - 1];
      var front := Select(order[..|order| - 1], aliases, keep);
      if (last in aliases) == keep then front + [last] else front
  }

  lemma {:induction false} SelectMembers(order: seq<string>, aliases: set<string>, keep: bool)
    ensures forall z :: z in Select(order, aliases, keep) <==> z in order && (z in aliases <==> keep)
  {
    if order != [] {
      var front := order[..|order| - 1];
      SelectMembers(front, aliases, keep);
      assert forall z :: z in order <==> z in front || z == order[|order| - 1];
    }
  }

  /** `goals` restricted to `names`: the value of each name, a later one replacing an earlier one. */
  function Restrict(goals: map<string, real>, names: seq<string>): (r: map<string, real>)
  {
    if names == [] then map[]
    else
      var last := names[|names| - 1];
      var front := Restrict(goals, names[..|names| - 1]);
      if last in goals then front[last := goals[last]] else front
  }

  lemma {:induction false} RestrictMembers(goals: map<string, real>, names: seq<string>)
    ensures forall z :: z in Restrict(goals, names) <==> z in names && z in goals
    ensures forall z :: z in Restrict(goals, names) ==> Restrict(goals, names)[z] == goals[z]
  {
    if names != [] {
      var front := names[..|names| - 1];
      RestrictMembers(goals, front);
      assert forall z :: z in names <==> z in front || z == names[|names| - 1];
    }
  }

  lemma SelectStep(order: seq<string>, i: nat, aliases: set<string>, keep: bool)
    requires i < |order|
    ensures Select(order[..i + 1], aliases, keep)
            == if (order[i] in aliases) == keep then Select(order[..i], aliases, keep) + [order[i]]
               else Select(order[..i], aliases, keep)
  {
    assert order[..i + 1][..i] == order[..i];
  }

  lemma RestrictAppend(goals: map<string, real>, names: seq<string>, t: string)
    requires t in goals
    ensures Restrict(goals, names + [t]) == Restrict(goals, names)[t := goals[t]]
  {
    assert (names + [t])[..|names|] == names;
  }

  /** `set_input_alias(name, value)` on the wrapped engine whose input aliases already hold
      `direct`; it can raise (an unknown alias, a path that does not resolve, a parameter the
      component does not declare). */
  type Writer = (map<string, real>, string, real) -> Status

  /** The writes of `solve`'s split loop: the targets of `order` that are input aliases are
      written in order until one write raises. The direct inputs they leave, and the status. */
  function WriteAll(write: Writer, direct: map<string, real>, goals: map<string, real>, aliases: set<string>,
                    order: seq<string>): (r: (map<string, real>, Status))
    requires forall k :: 0 <= k < |order| ==> order[k] in goals
  {
    if order == [] then (direct, Success)
    else
      var front := WriteAll(write, direct, goals, aliases, order[..|order| - 1]);
      var t := order[|order| - 1];
      if front.1.Failure? || t !in aliases then front
      else
        match write(front.0, t, goals[t])
        case Failure(e) => (front.0, Failure(e))
        case Success => (front.0[t := goals[t]], Success)
  }

  /** When no write raises, the engine holds every input-alias target, later writes on top
      of what it held before. */
  lemma {:induction false} WriteAllMeaning(write: Writer, direct: map<string, real>, goals: map<string, real>,
                                           aliases: set<string>, order: seq<string>)
    requires forall k :: 0 <= k < |order| ==> order[k] in goals
    requires WriteAll(write, direct, goals, aliases, order).1.Success?
    ensures WriteAll(write, direct, goals, aliases, order).0 == direct + Restrict(goals, Select(order, aliases, true))
  {
    if order != [] {
      var front := order[..|order| - 1];
      var t := order[|order| - 1];
      var fr := WriteAll(write, direct, goals, aliases, front);
      assert fr.1.Success?;
      WriteAllMeaning(write, direct, goals, aliases, front);
      var before := Select(front, aliases, true);
      if t in aliases {
        assert Select(order, aliases, true) == before + [t];
        RestrictAppend(goals, before, t);
        assert WriteAll(write, direct, goals, aliases, order).0 == fr.0[t := goals[t]];
        assert (direct + Restrict(goals, before))[t := goals[t]] == direct + Restrict(goals, before)[t := goals[t]];
      } else {
        assert Select(order, aliases, true) == before;
      }
    }
  }

  /** One more target extends the writes by its own, if it is an input alias. */
  lemma WriteAllStep(write: Writer, direct: map<string, real>, goals: map<string, real>, aliases: set<string>,
                     order: seq<string>, i: nat)
    requires forall k :: 0 <= k < |order| ==> order[k] in goals
    requires i < |order|
    ensures var front := WriteAll(write, direct, goals, aliases, order[..i]);
            WriteAll(write, direct, goals, aliases, order[..i + 1])
              == if front.1.Failure? || order[i] !in aliases then front
                 else match write(front.0, order[i], goals[order[i]])
                      case Failure(e) => (front.0, Failure(e))
                      case Success => (front.0[order[i] := goals[order[i]]], Success)
  {
    assert order[..i + 1][..i] == order[..i];
  }

  /** A write that raises ends the loop: the targets after it are never written. */
  lemma {:induction false} WriteAllStops(write: Writer, direct: map<string, real>, goals: map<string, real>,
                                         aliases: set<string>, order: seq<string>, i: nat)
    requires forall k :: 0 <= k < |order| ==> order[k] in goals
    requires i <= |order| && WriteAll(write, direct, goals, aliases, order[..i]).1.Failure?
    ensures WriteAll(write, direct, goals, aliases, order) == WriteAll(write, direct, goals, aliases, order[..i])
    decreases |order| - i
  {
    if i < |order| {
      var front := order[..|order| - 1];
      assert front[..i] == order[..i];
      WriteAllStops(write, direct, goals, aliases, front, i);
    } else {
      assert order[..i] == order;
    }
  }

  /** The split of `solve`'s loop, target by target: an input alias is passed to `write`,
      and the first write that raises ends the loop; any other target goes to `names` and
      `solverTargets`, which `self.targets` receives. */
  method SplitGoals(goals: map<string, real>, order: seq<string>, aliases: set<string>,
                    write: Writer, direct0: map<string, real>)
      returns (names: seq<string>, solverTargets: map<string, real>, direct: map<string, real>, s: Status)
    requires Engines.Ordered(order, goals)
    ensures (direct, s) == WriteAll(write, direct0, goals, aliases, order)
    ensures s.Success? ==> names == Select(order, aliases, false) && solverTargets == Restrict(goals, names)
    ensures s.Success? ==> Engines.Ordered(names, solverTargets)
  {
    names, solverTargets, direct := [], map[], direct0;
    var i := 0;
    while i < |order|
      invariant 0 <= i <= |order|
      invariant names == Select(order[..i], aliases, false) && solverTargets == Restrict(goals, names)
      invariant WriteAll(write, direct0, goals, aliases, order[..i]) == (direct, Success)
    {
      var t := order[i];
      WriteAllStep(write, direct0, goals, aliases, order, i);
      SelectStep(order, i, aliases, false);
      if t in aliases {
        s := write(direct, t, goals[t]);
        if s.Failure? {
          WriteAllStops(write, direct0, goals, aliases, order, i + 1);
          return;
        }
        direct := direct[t := goals[t]];
      } else {
        RestrictAppend(goals, names, t);
        solverTargets := solverTargets[t := goals[t]];
        names := names + [t];
      }
      i := i + 1;
    }
    assert order[..i] == order;
    s := Success;
    SelectDistinct(order, aliases, false);
    SelectMembers(order, aliases, false);
    RestrictMembers(goals, names);
  }

  predicate Distinct(s: seq<string>)
  {
    forall i, j :: 0 <= i < j < |s| ==> s[i] != s[j]
  }

  lemma {:induction false} SelectDistinct(order: seq<string>, aliases: set<string>, keep: bool)
    requires Distinct(order)
    ensures Distinct(Select(order, aliases, keep))
  {
    if order != [] {
      var front := order[..|order| - 1];
      SelectDistinct(front, aliases, keep);
      SelectMembers(front, aliases, keep);
      var last := order[|order| - 1];
      assert last !in front;
      var f := Select(front, aliases, keep);
      if (last in aliases) == keep {
        var r := f + [last];
        assert Select(order, aliases, keep) == r;
        assert Distinct(f);
        forall i, j | 0 <= i < j < |r|
          ensures r[i] != r[j]
        {
          if j == |f| {
            assert r[i] == f[i] && f[i] in f && f[i] in front;
          } else {
            assert r[i] == f[i] && r[j] == f[j];
          }
        }
      } else {
        assert Select(order, aliases, keep) == f;
      }
    }
  }

  /** The start values of `solve`: each variable at its setting's start value. */
  function Start(settings: map<string, Setting>): (r: map<string, real>)
    ensures r.Keys == settings.Keys
  {
    map x | x in settings :: settings[x].sval
  }

  /** The next values of `solve`: each variable moved by its correction. */
  function Advance(values: map<string, real>, c: map<string, real>): (r: map<string, real>)
    requires values.Keys <= c.Keys
    ensures r.Keys == values.Keys
  {
    map x | x in values :: values[x] + c[x]
  }

  class Solver {
    /** `engine.calculate(values)` on an engine whose input aliases hold `direct`. */
    const evaluate: (map<string, real>, map<string, real>) -> Result<map<string, real>>
    /** The names of the engine's input aliases. */
    const aliases: set<string>
    /** `set_input_alias` on the wrapped engine. */
    const write: Writer
    /** `numpy.linalg.tensorsolve`; `None` is a LinAlgError. */
    const linsolve: (seq<seq<real>>, seq<real>) -> Option<seq<real>>
    /** `input_settings`, and its iteration order (shared by every dict keyed by it). */
    const settings: map<string, Setting>
    const variables: seq<string>
    /** What `set_input_alias` has written to the wrapped engine. */
    var direct: map<string, real>
    /** `self.targets`: the targets left to the solver, and their iteration order. */
    var targets: map<string, real>
    var zs: seq<string>

    ghost predicate Valid()
      reads this
    {
      Engines.Ordered(variables, settings) && Engines.Ordered(zs, targets)
    }

    /** `Solver.__init__`: the solver wraps an engine and the settings of its variables. */
    constructor (evaluate: (map<string, real>, map<string, real>) -> Result<map<string, real>>, aliases: set<string>,
                 write: Writer, linsolve: (seq<seq<real>>, seq<real>) -> Option<seq<real>>,
                 settings: map<string, Setting>, variables: seq<string>)
      requires Engines.Ordered(variables, settings)
      ensures Valid() && direct == map[] && targets == map[] && zs == []
      ensures this.evaluate == evaluate && this.aliases == aliases && this.write == write && this.linsolve == linsolve
      ensures this.settings == settings && this.variables == variables
    {
      this.evaluate, this.aliases, this.write, this.linsolve := evaluate, aliases, write, linsolve;
      this.settings, this.variables := settings, variables;
      direct, targets, zs := map[], map[], [];
    }

    /** The gradient row of variable `x`: the engine is run with `x` perturbed. */
    function Row(current: map<string, real>, defaults: map<string, real>, x: string): (r: Result<map<string, real>>)
      reads this
      requires x in current && x in settings
      ensures r.Ok? ==> forall z :: z in zs ==> z in r.value
    {
      var h := settings[x].perturbation;
      var outputs :- evaluate(direct, Perturbed(current, x, h));
      GradientRow(zs, outputs, defaults, h)
    }

    /** The rows of the variables `xs`, in order; the first one that fails raises. */
    function Rows(current: map<string, real>, defaults: map<string, real>, xs: seq<string>): (r: Result<map<string, map<string, real>>>)
      reads this
      requires forall x :: x in xs ==> x in current && x in settings
      ensures r.Ok? ==> Shaped(r.value, xs, zs) && forall x :: x in r.value ==> x in xs
      decreases |xs|
    {
      if xs == [] then Ok(map[])
      else
        var front := xs[..|xs| - 1];
        assert forall x :: x in xs <==> x in front || x == xs[|xs| - 1];
        var m :- Rows(current, defaults, front);
        var row :- Row(current, defaults, xs[|xs| - 1]);
        Ok(m[xs[|xs| - 1] := row])
    }

    /** The gradients hold a row for every variable and nothing else, each the row of that
        variable's run; they raise exactly when some row does. */
    lemma {:induction false} RowsMeaning(current: map<string, real>, defaults: map<string, real>, xs: seq<string>)
      requires forall x :: x in xs ==> x in current && x in settings
      ensures var r := Rows(current, defaults, xs);
              && (r.Ok? <==> forall x :: x in xs ==> Row(current, defaults, x).Ok?)
              && (r.Ok? ==> forall x :: x in r.value <==> x in xs)
              && (r.Ok? ==> forall x :: x in xs ==> Row(current, defaults, x) == Ok(r.value[x]))
      decreases |xs|
    {
      if xs != [] {
        var front := xs[..|xs| - 1];
        RowsMeaning(current, defaults, front);
        assert forall x :: x in xs <==> x in front || x == xs[|xs| - 1];
      }
    }

    lemma {:induction false} RowsStop(current: map<string, real>, defaults: map<string, real>, xs: seq<string>, k: nat)
      requires forall x :: x in xs ==> x in current && x in settings
      requires k <= |xs| && Rows(current, defaults, xs[..k]).Err?
      ensures Rows(current, defaults, xs) == Rows(current, defaults, xs[..k])
      decreases |xs|
    {
      if k < |xs| {
        var front := xs[..|xs| - 1];
        assert front[..k] == xs[..k];
        RowsStop(current, defaults, front, k);
      } else {
        assert xs[..k] == xs;
      }
    }

    /** What `generate_jacobian(current)` returns: the baseline run, then a row per variable. */
    function Gradients(current: map<string, real>): (r: Result<map<string, map<string, real>>>)
      reads this
      requires Valid() && current.Keys == settings.Keys
      ensures r.Ok? ==> Shaped(r.value, variables, zs) && Engines.Ordered(variables, r.value)
    {
      var defaults :- evaluate(direct, current);
      Rows(current, defaults, variables)
    }

    /** The rows of the first `n` variables: `Rows` as the loop of `generate_jacobian` sees
        it, one row at a time. */
    function RowsUpTo(current: map<string, real>, defaults: map<string, real>, n: nat): (r: Result<map<string, map<string, real>>>)
      reads this
      requires Valid() && current.Keys == settings.Keys && n <= |variables|
    {
      Rows(current, defaults, variables[..n])
    }

    /** `generate_jacobian`. */
    method GenerateJacobian(current: map<string, real>) returns (r: Result<map<string, map<string, real>>>)
      requires Valid() && current.Keys == settings.Keys
      ensures r == Gradients(current)
    {
      var defaults := evaluate(direct, current);
      if defaults.Err? {
        return Err(defaults.error);
      }
      var gradients := map[];
      var i := 0;
      while i < |variables|
        invariant 0 <= i <= |variables|
        invariant RowsUpTo(current, defaults.value, i) == Ok(gradients)
      {
        var x := variables[i];
        assert variables[..i + 1][..i] == variables[..i];
        var h := settings[x].perturbation;
        var outputs := evaluate(direct, Perturbed(current, x, h));
        if outputs.Err? {
          RowsStop(current, defaults.value, variables, i + 1);
          return Err(outputs.error);
        }
        var row := RowOf(outputs.value, defaults.value, h);
        if row.Err? {
          RowsStop(current, defaults.value, variables, i + 1);
          return Err(row.error);
        }
        gradients := gradients[x := row.value];
        i := i + 1;
      }
      assert variables[..i] == variables;
      r := Ok(gradients);
    }

    /** The inner loop of `generate_jacobian`: the gradient of every target for one run. */
    method RowOf(outputs: map<string, real>, defaults: map<string, real>, h: real) returns (r: Result<map<string, real>>)
      ensures r == GradientRow(zs, outputs, defaults, h)
    {
      var row := map[];
      var k := 0;
      while k < |zs|
        invariant 0 <= k <= |zs|
        invariant GradientRow(zs[..k], outputs, defaults, h) == Ok(row)
      {
        var z := zs[k];
        assert zs[..k + 1][..k] == zs[..k];
        if z !in outputs || z !in defaults {
          GradientRowStops(zs, outputs, defaults, h, k + 1);
          return Err(KeyError(z));
        }
        var q := Div(outputs[z] - defaults[z], h);
        if q.Err? {
          GradientRowStops(zs, outputs, defaults, h, k + 1);
          return Err(q.error);
        }
        row := row[z := q.value];
        k := k + 1;
      }
      assert zs[..k] == zs;
      r := Ok(row);
    }

    /** `next_iteration`: the Jacobian, then the linear solve of the Newton step. */
    method NextIteration(current: map<string, real>, errors: map<string, real>) returns (r: Result<map<string, real>>)
      requires Valid() && current.Keys == settings.Keys && forall z :: z in zs ==> z in errors
      ensures var g := Gradients(current);
              r == if g.Err? then Err(g.error) else Step(g.value, variables, zs, errors, linsolve)
      ensures r.Ok? ==> r.value.Keys == current.Keys
    {
      var g := GenerateJacobian(current);
      if g.Err? {
        return Err(g.error);
      }
      r := Step(g.value, variables, zs, errors, linsolve);
    }

    /** The loop of `solve` that splits the targets: an input alias is written to the engine,
        any other target is left to the solver; a write that raises leaves the earlier writes
        in the engine and `self.targets` as it was. */
    method Partition(goals: map<string, real>, order: seq<string>) returns (s: Status)
      requires Valid() && Engines.Ordered(order, goals)
      modifies this
      ensures Valid()
      ensures (direct, s) == WriteAll(write, old(direct), goals, aliases, order)
      ensures s.Success? ==> zs == Select(order, aliases, false) && targets == Restrict(goals, zs)
      ensures s.Success? ==> direct == old(direct) + Restrict(goals, Select(order, aliases, true))
      ensures s.Failure? ==> zs == old(zs) && targets == old(targets)
    {
      var names, solverTargets, written;
      names, solverTargets, written, s := SplitGoals(goals, order, aliases, write, direct);
      if s.Success? {
        WriteAllMeaning(write, direct, goals, aliases, order);
        zs, targets := names, solverTargets;
      }
      direct := written;
    }

    /** The errors of the targets left to the solver are all below the criterion at `values`. */
    predicate Converged(values: map<string, real>)
      reads this
      requires Valid()
    {
      var results := evaluate(direct, values);
      && results.Ok?
      && var e := Errors(targets, zs, results.value);
      && e.Ok? && IsConverged(e.value)
    }

    /** One pass of the loop of `solve`: the engine is run at `values`; converged errors end
        the loop (`None`), otherwise the values with the Newton corrections added go on. */
    function Round(values: map<string, real>): (r: Result<Option<map<string, real>>>)
      reads this
      requires Valid() && values.Keys == settings.Keys
      ensures r == Ok(None) ==> Converged(values)
      ensures r.Ok? && r.value.Some? ==> r.value.value.Keys == settings.Keys
    {
      var results :- evaluate(direct, values);
      var errors :- Errors(targets, zs, results);
      if IsConverged(errors) then Ok(None)
      else
        var g :- Gradients(values);
        var c :- Step(g, variables, zs, errors, linsolve);
        Ok(Some(Advance(values, c)))
    }

    /** What the loop of `solve` returns from `values` when the engine may still be run
        `budget` times; with no run left it raises. */
    function Trajectory(values: map<string, real>, budget: nat): (r: Result<map<string, real>>)
      reads this
      requires Valid() && values.Keys == settings.Keys
      ensures r.Ok? ==> r.value.Keys == settings.Keys && Converged(r.value)
      ensures budget == 0 ==> r == Err(IterationLimit)
      decreases budget, 1
    {
      if budget == 0 then Err(IterationLimit) else Pass(values, budget - 1)
    }

    /** One pass of the loop from `values`, with `rest` runs left after it: a pass that
        raises ends the loop with its error, a converged pass returns `values`, any other
        goes on from the corrected values. */
    function Pass(values: map<string, real>, rest: nat): (r: Result<map<string, real>>)
      reads this
      requires Valid() && values.Keys == settings.Keys
      ensures r.Ok? ==> r.value.Keys == settings.Keys && Converged(r.value)
      decreases rest + 1, 0
    {
      var next :- Round(values);
      match next
      case None => Ok(values)
      case Some(v) => Trajectory(v, rest)
    }

    /** What the loop returns from `values` with `budget` runs allowed: `Trajectory` as the
        loop's invariant sees it, one pass at a time. */
    function Outcome(values: map<string, real>, budget: nat): (r: Result<map<string, real>>)
      reads this
      requires Valid() && values.Keys == settings.Keys
    {
      Trajectory(values, budget)
    }

    /** The body of the loop of `solve`. */
    method RoundOf(values: map<string, real>) returns (r: Result<Option<map<string, real>>>)
      requires Valid() && values.Keys == settings.Keys
      ensures r == Round(values)
    {
      var results := evaluate(direct, values);
      if results.Err? {
        return Err(results.error);
      }
      var errors := Errors(targets, zs, results.value);
      if errors.Err? {
        return Err(errors.error);
      }
      if IsConverged(errors.value) {
        return Ok(None);
      }
      var corrections := NextIteration(values, errors.value);
      if corrections.Err? {
        return Err(corrections.error);
      }
      r := Ok(Some(Advance(values, corrections.value)));
    }

    /** One pass of the loop of `solve`, with what it tells of the loop's outcome. */
    method PassOf(values: map<string, real>, ghost remaining: nat, ghost outcome: Result<map<string, real>>)
      returns (r: Result<Option<map<string, real>>>)
      requires Valid() && values.Keys == settings.Keys && remaining > 0 && Outcome(values, remaining) == outcome
      ensures r.Err? ==> outcome == Err(r.error)
      ensures r == Ok(None) ==> outcome == Ok(values)
      ensures r.Ok? && r.value.Some? ==> r.value.value.Keys == settings.Keys && Outcome(r.value.value, remaining - 1) == outcome
    {
      r := RoundOf(values);
      assert Pass(values, remaining - 1) == outcome;
    }

    /** The loop of `solve`: iterations 0 to `budget - 1` run the engine, the next one raises
        (`solve` allows iterations up to `IterLimit`). */
    method Iterate(start: map<string, real>, budget: nat) returns (r: Result<map<string, real>>)
      requires Valid() && start.Keys == settings.Keys
      ensures r == Outcome(start, budget)
    {
      var values := start;
      var iteration := 0;
      ghost var remaining := budget;
      ghost var outcome := Outcome(start, budget);
      while iteration < budget
        invariant iteration <= budget && remaining == budget - iteration && values.Keys == settings.Keys
        invariant Outcome(values, remaining) == outcome
      {
        var next := PassOf(values, remaining, outcome);
        if next.Err? {
          return Err(next.error);
        }
        if next.value.None? {
          return Ok(values);
        }
        values := next.value.value;
        iteration, remaining := iteration + 1, remaining - 1;
      }
      r := Err(IterationLimit);
    }

    /** `solve(targets)`: a write that raises ends it; after the split, the solver's targets
        must be as many as its variables; the variables start at their start values. */
    method Solve(goals: map<string, real>, order: seq<string>) returns (r: Result<map<string, real>>)
      requires Valid() && Engines.Ordered(order, goals)
      modifies this
      ensures Valid()
      ensures var w := WriteAll(write, old(direct), goals, aliases, order);
              && direct == w.0
              && (w.1.Failure? ==> r == Err(w.1.error) && zs == old(zs) && targets == old(targets))
              && (w.1.Success? ==>
                    && zs == Select(order, aliases, false) && targets == Restrict(goals, zs)
                    && direct == old(direct) + Restrict(goals, Select(order, aliases, true)))
      ensures WriteAll(write, old(direct), goals, aliases, order).1.Success? ==>
                && (|targets| != |settings| ==> r == Err(AssertionError("solver variables and targets must balance")))
                && (|targets| == |settings| ==> r == Trajectory(Start(settings), IterLimit + 1))
    {
      var s := Partition(goals, order);
      if s.Failure? {
        return Err(s.error);
      }
      if |targets| != |settings| {
        return Err(AssertionError("solver variables and targets must balance"));
      }
      r := Iterate(Start(settings), IterLimit + 1);
    }
  }
}
