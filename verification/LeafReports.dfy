/** What a run of a leaf loop leaves behind, for any kind of leaf. */
module LeafReports {
  import opened Children

  datatype Report<F, E, O> = Report(fields: F, outcome: O, log: seq<E>, trace: seq<Atom>)
  {
    /** The same report with an earlier log and trace in front. */
    function After(log: seq<E>, trace: seq<Atom>): Report<F, E, O> {
      Report(fields, outcome, log + this.log, trace + this.trace)
    }
  }

  lemma AfterAfter<F, E, O>(
    r: Report<F, E, O>, log: seq<E>, trace: seq<Atom>, log0: seq<E>, trace0: seq<Atom>)
    ensures r.After(log, trace).After(log0, trace0) == r.After(log0 + log, trace0 + trace)
  {
    assert log0 + (log + r.log) == log0 + log + r.log;
    assert trace0 + (trace + r.trace) == trace0 + trace + r.trace;
  }

  lemma AfterExtends<F, E, O>(r: Report<F, E, O>, log: seq<E>, trace: seq<Atom>, log0: seq<E>)
    ensures log0 + r.After(log, trace).log == (log0 + log) + r.log
  {
  }

  function CountIf<E>(log: seq<E>, p: E -> bool): nat {
    if log == [] then 0 else CountIf(log[..|log| - 1], p) + (if p(log[|log| - 1]) then 1 else 0)
  }

  lemma {:induction false} CountIfConcat<E>(a: seq<E>, b: seq<E>, p: E -> bool)
    ensures CountIf(a + b, p) == CountIf(a, p) + CountIf(b, p)
    decreases |b|
  {
    if b == [] {
      assert a + b == a;
    } else {
      assert (a + b)[..|a + b| - 1] == a + b[..|b| - 1];
      CountIfConcat(a, b[..|b| - 1], p);
    }
  }

  /** One more event in front of a report. */
  lemma AfterOne<F, E, O>(r: Report<F, E, O>, e: E, trace: seq<Atom>, p: E -> bool)
    ensures CountIf(r.After([e], trace).log, p) == (if p(e) then 1 else 0) + CountIf(r.log, p)
  {
    CountIfSingle(e, p);
    CountIfConcat([e], r.log, p);
  }

  lemma CountIfSingle<E>(e: E, p: E -> bool)
    ensures CountIf([e], p) == if p(e) then 1 else 0
  {
    assert [e][..0] == [];
  }
}
