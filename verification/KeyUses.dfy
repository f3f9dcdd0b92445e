/** The use counts of the server's step system are those of the bridge-key table. */
module KeyUses {
  import opened Basics
  import K = KeyStore
  import opened ServerRuns

  /** The step system's counts and limits are the table's: a limit of zero is none. */
  ghost predicate Tracks(c: Config, uses: map<string, int>, rows: map<string, K.Row>) {
    forall k | k in rows ::
      && UsesOf(uses, k) == rows[k].currentUses >= 0
      && (k in c.maxUses <==> K.Truthy(rows[k].maxUses).Some?)
      && (k in c.maxUses ==> c.maxUses[k] == Max(0, rows[k].maxUses.value))
  }

  /** The conditional increment of the step system is the table's statement with the stored limit. */
  lemma CountIsIncrement(c: Config, uses: map<string, int>, rows: map<string, K.Row>, key: string)
    requires Tracks(c, uses, rows) && key in rows
    ensures MayCount(c, uses, key) <==> K.MayIncrement(rows, key, K.Truthy(rows[key].maxUses))
    ensures Tracks(c, uses[key := UsesOf(uses, key) + 1], K.Incremented(rows, key))
  {
  }

  lemma DecrementIsRelease(c: Config, uses: map<string, int>, rows: map<string, K.Row>, key: string)
    requires Tracks(c, uses, rows) && key in rows
    ensures Tracks(c, Decremented(uses, key), K.Released(rows, key))
  {
  }

  lemma SweepKeepsCounts(c: Config, uses: map<string, int>, rows: map<string, K.Row>, now: int)
    requires Tracks(c, uses, rows)
    ensures Tracks(c, uses, K.Swept(rows, now))
  {
  }

  /** What the step system does for a validation with this outcome. */
  function StepsOf(x: nat, code: K.Code): seq<Step> {
    match code
    case Ok => [Count(x)]
    case RateLimited => [Count(x)]
    case TierFailed => [Count(x), TierLookupFails(x)]
    case _ => [Refuse(x)]
  }

  function PhaseOf(code: K.Code): Phase {
    match code
    case Ok => Counted
    case TierFailed => RefusedLate
    case _ => RefusedEarly
  }

  function Validated(c: Config, st: Server, x: nat, code: K.Code): Server
    requires x in st.sessions
  {
    match code
    case Ok => CountUse(c, st, x)
    case RateLimited => CountUse(c, st, x)
    case TierFailed => Refused(CountUse(c, st, x), x, RefusedLate)
    case _ => Refused(st, x, RefusedEarly)
  }

  predicate Arrives(st: Server, x: nat) {
    x in st.sessions && st.sessions[x].phase == Arriving
  }

  /** The steps can be taken in a state where the limit is as the outcome says. */
  lemma StepsAreTaken(c: Config, st: Server, x: nat, code: K.Code)
    requires Arrives(st, x) && (code == K.TierFailed ==> MayCount(c, st.uses, st.sessions[x].key))
    ensures Reaches(c, st, StepsOf(x, code), Validated(c, st, x, code))
  {
    match code
    case Ok => OneStep(c, st, Count(x));
    case RateLimited => OneStep(c, st, Count(x));
    case TierFailed =>
      OneStep(c, CountUse(c, st, x), TierLookupFails(x));
      assert [Count(x), TierLookupFails(x)][1..] == [TierLookupFails(x)];
    case _ => OneStep(c, st, Refuse(x));
  }

  lemma OneStep(c: Config, st: Server, step: Step)
    requires CanStep(c, st, step)
    ensures Reaches(c, st, [step], Next(c, st, step))
  {
  }

  lemma EndsInPhase(c: Config, st: Server, x: nat, code: K.Code)
    requires Arrives(st, x)
    requires code in {K.Ok, K.TierFailed, K.RateLimited} ==>
               (MayCount(c, st.uses, st.sessions[x].key) <==> code != K.RateLimited)
    ensures var n, key := Validated(c, st, x, code), st.sessions[x].key;
            && x in n.sessions && n.sessions[x].phase == PhaseOf(code)
            && n.uses == if code in {K.Ok, K.TierFailed} then st.uses[key := UsesOf(st.uses, key) + 1] else st.uses
  {
  }

  /** The limit decides the outcome of a default validation that reaches the usage write. */
  lemma OutcomeIsCount(c: Config, uses: map<string, int>, rows: map<string, K.Row>, key: string, w: K.World)
    requires Tracks(c, uses, rows) && key in rows && w.useWrite
    ensures var code := K.Verdict(rows[key], K.DEFAULTS, w);
            && (code in {K.Ok, K.TierFailed, K.RateLimited} ==> (MayCount(c, uses, key) <==> code != K.RateLimited))
            && Tracks(c, if code in {K.Ok, K.TierFailed} then uses[key := UsesOf(uses, key) + 1] else uses,
                      rows[key := K.RowAfter(rows[key], K.DEFAULTS, w)])
  {
  }

  /**
   * A validation of a stored key whose usage write does not throw is simulated by the step system: its steps
   * can be taken, end in the phase that belongs to the outcome, and count exactly what the table counts.
   * The validation is one call here; validations that interleave at the awaits between the row's reading,
   * its status write and the increment are the subject of the step system alone.
   */
  lemma ValidationIsSimulated(c: Config, st: Server, x: nat, rows: map<string, K.Row>, w: K.World)
    requires Arrives(st, x) && st.sessions[x].key in rows && Tracks(c, st.uses, rows)
    requires w.formatOk && w.service.Ready? && w.lookup == Some(Some(st.sessions[x].key)) && w.useWrite
    ensures var code := K.CodeOf(rows, K.DEFAULTS, w);
            var n := Validated(c, st, x, code);
            && Reaches(c, st, StepsOf(x, code), n)
            && x in n.sessions && n.sessions[x].phase == PhaseOf(code)
            && Tracks(c, n.uses, K.TableAfter(rows, K.DEFAULTS, w))
  {
    OutcomeIsCount(c, st.uses, rows, st.sessions[x].key, w);
    EndsInPhase(c, st, x, K.CodeOf(rows, K.DEFAULTS, w));
    StepsAreTaken(c, st, x, K.CodeOf(rows, K.DEFAULTS, w));
  }
}
