/** The output side of every exporter: an io.Writer that only grows, and the
    "separator, then body, stop at the first failure" discipline the exporters follow. */
module Output {
  import opened Wrappers

  /** The line written before every YAML document. */
  const Separator: string := "---\n"

  /** An io.Writer whose writes never fail (the exporters discard write errors). */
  class Writer {
    var written: string

    constructor ()
      ensures written == ""
    {
      written := "";
    }

    method Write(p: string)
      modifies this
      ensures written == old(written) + p
    {
      written := written + p;
    }
  }

  /** What handling one record does to the output: it writes `text` and the
      export goes on, or it writes `partial` and the export returns `error`. */
  datatype Step = Wrote(text: string) | Failed(partial: string, error: Error)

  /** The whole output of an export and the error it returns, if any. */
  datatype Emission = Emission(output: string, error: Option<Error>)

  /** The result of handling the records in order and returning at the first failure,
      with everything written before it left in place. */
  function Emit(steps: seq<Step>): Emission
    decreases |steps|
  {
    if steps == [] then Emission("", None)
    else
      var prior := Emit(steps[..|steps| - 1]);
      if prior.error.Some? then prior
      else match steps[|steps| - 1]
        case Wrote(t) => Emission(prior.output + t, None)
        case Failed(p, e) => Emission(prior.output + p, Some(e))
  }

  lemma PrefixSnoc<T>(s: seq<T>, i: nat)
    requires i < |s|
    ensures s[..i + 1] == s[..i] + [s[i]]
  {
  }

  lemma AppendAssoc<T>(a: seq<T>, b: seq<T>, c: seq<T>)
    ensures (a + b) + c == a + (b + c)
  {
  }

  /** One more step after a run of successful ones appends its output. */
  lemma EmitSnoc(steps: seq<Step>, s: Step)
    requires Emit(steps).error.None?
    ensures Emit(steps + [s]) == match s
      case Wrote(t) => Emission(Emit(steps).output + t, None)
      case Failed(p, e) => Emission(Emit(steps).output + p, Some(e))
  {
    assert (steps + [s])[..|steps|] == steps;
  }

  /** Once a prefix of the steps has failed, the later steps change nothing. */
  lemma {:induction false} EmitFailureSticks(steps: seq<Step>, n: nat)
    requires n <= |steps|
    requires Emit(steps[..n]).error.Some?
    ensures Emit(steps) == Emit(steps[..n])
    decreases |steps| - n
  {
    if n < |steps| {
      var longer := steps[..n + 1];
      assert longer[..n] == steps[..n];
      EmitFailureSticks(steps, n + 1);
    } else {
      assert steps[..n] == steps;
    }
  }

  /** What all steps write when none of them fails. */
  function Texts(steps: seq<Step>): string
    requires forall k :: 0 <= k < |steps| ==> steps[k].Wrote?
    decreases |steps|
  {
    if steps == [] then "" else steps[0].text + Texts(steps[1..])
  }

  /** The result of handling the steps: with no failure, the texts of all steps and no error;
      otherwise the texts of the steps before the first failure, that failure's partial output
      and its error. */
  lemma {:induction false} EmitFirstFailure(steps: seq<Step>, i: nat)
    requires i <= |steps|
    requires forall k :: 0 <= k < i ==> steps[k].Wrote?
    requires i < |steps| ==> steps[i].Failed?
    ensures i == |steps| ==> Emit(steps) == Emission(Texts(steps), None)
    ensures i < |steps| ==> Emit(steps) == Emission(Texts(steps[..i]) + steps[i].partial, Some(steps[i].error))
  {
    EmitAllWrote(steps[..i]);
    if i < |steps| {
      assert steps[..i + 1] == steps[..i] + [steps[i]];
      EmitSnoc(steps[..i], steps[i]);
      EmitFailureSticks(steps, i + 1);
    } else {
      assert steps[..i] == steps;
    }
  }

  lemma {:induction false} EmitAllWrote(steps: seq<Step>)
    requires forall k :: 0 <= k < |steps| ==> steps[k].Wrote?
    ensures Emit(steps) == Emission(Texts(steps), None)
    decreases |steps|
  {
    if steps != [] {
      var init := steps[..|steps| - 1];
      EmitAllWrote(init);
      TextsSnoc(init, steps[|steps| - 1]);
      assert init + [steps[|steps| - 1]] == steps;
    }
  }

  lemma {:induction false} TextsSnoc(steps: seq<Step>, s: Step)
    requires forall k :: 0 <= k < |steps| ==> steps[k].Wrote?
    requires s.Wrote?
    ensures Texts(steps + [s]) == Texts(steps) + s.text
    decreases |steps|
  {
    if steps == [] {
      assert [s][1..] == [];
    } else {
      assert (steps + [s])[1..] == steps[1..] + [s];
      TextsSnoc(steps[1..], s);
    }
  }

  /** The separator followed by one YAML document. */
  function Document(body: string): (d: string)
    ensures |d| == |Separator| + |body| && d[..|Separator|] == Separator && d[|Separator|..] == body
  {
    Separator + body
  }
}
