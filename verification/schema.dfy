/**
  The form's validation schema and the submission it guards.

  The schema maps keys of the form's values to rules. A missing value (an
  empty input, or a key the values do not hold) fails as "Required"; a CTC
  must be positive; a percentage must lie in [0, 100]. The form submits, and
  the salary arithmetic runs, only when no key has an error.

  The schema as written names a key H where the form's third input is ETF.
  Nothing ever sets H, so as written the form can never submit; `Corrected`
  is the schema with ETF in H's place.
 */
module Schema {
  import Salary
  import opened Form

  /** Keys the schemas mention. */
  datatype Key = CtcKey | EpfKey | EtfKey | HKey | TaxKey

  /** The two rules the schema uses. */
  datatype Rule =
    | PositiveRule   // required, greater than 0
    | PercentRule    // required, at least 0, at most 100

  /** Why a value fails its rule. */
  datatype Error = Required | MustBePositive | BelowMin | AboveMax

  type Schema = map<Key, Rule>

  /** The schema as the form declares it: H, not ETF. */
  function AsWritten(): Schema
  {
    map[CtcKey := PositiveRule, EpfKey := PercentRule, HKey := PercentRule, TaxKey := PercentRule]
  }

  /** The schema with ETF validated in place of H. */
  function Corrected(): Schema
  {
    map[CtcKey := PositiveRule, EpfKey := PercentRule, EtfKey := PercentRule, TaxKey := PercentRule]
  }

  /** The value the schema sees under a key: an input's entry, or H. */
  function Lookup(v: Values, k: Key): Option<real>
  {
    match k
    case CtcKey => Get(v, CTC)
    case EpfKey => Get(v, EPF)
    case EtfKey => Get(v, ETF)
    case TaxKey => Get(v, Tax)
    case HKey => v.h
  }

  /** The error a value draws under a rule, if any. A missing value draws
      only "Required"; the range rules are not consulted for it. */
  function Check(rule: Rule, x: Option<real>): (e: Option<Error>)
    ensures e == None <==> x.Some? && (if rule == PositiveRule then 0.0 < x.value else 0.0 <= x.value <= 100.0)
    ensures e == Some(Required) <==> x.None?
  {
    match x
    case None => Some(Required)
    case Some(n) =>
      match rule
      case PositiveRule => if n > 0.0 then None else Some(MustBePositive)
      case PercentRule =>
        if n < 0.0 then Some(BelowMin)
        else if n > 100.0 then Some(AboveMax)
        else None
  }

  /** The errors of a set of values: one per failing key. There are none
      exactly when every key the schema names passes its rule. */
  function Errors(s: Schema, v: Values): (e: map<Key, Error>)
    ensures e.Keys <= s.Keys
    ensures forall k :: k in s ==> (k in e <==> Check(s[k], Lookup(v, k)).Some?)
    ensures forall k :: k in e ==> Some(e[k]) == Check(s[k], Lookup(v, k))
    ensures e == map[] <==> forall k :: k in s ==> Check(s[k], Lookup(v, k)) == None
  {
    map k | k in s && Check(s[k], Lookup(v, k)).Some? :: Check(s[k], Lookup(v, k)).value
  }

  /** Values pass a schema when they draw no error. */
  predicate Valid(s: Schema, v: Values)
  {
    Errors(s, v) == map[]
  }

  /** A submission: the salary arithmetic runs exactly when every rule of
      the schema passes, and then its results account for the whole CTC. */
  function Submit(s: Schema, v: Values): (r: Option<Salary.Results>)
    ensures r.Some? <==> forall k :: k in s ==> Check(s[k], Lookup(v, k)) == None
    ensures r.Some? ==> r.value.gross + Salary.Deductions(ToInputs(v)) == Number(v.ctc)
    ensures r.Some? ==> r.value.net + Salary.TaxOn(ToInputs(v)) == r.value.gross
  {
    if Valid(s, v) then Some(OnSubmit(v)) else None
  }

  /** The schema as written accepts exactly: a positive CTC, and EPF, H and
      Tax present and within [0, 100]. */
  lemma AsWrittenAccepts(v: Values)
    ensures Valid(AsWritten(), v) <==>
      && v.ctc.Some? && v.ctc.value > 0.0
      && v.epf.Some? && 0.0 <= v.epf.value <= 100.0
      && v.h.Some? && 0.0 <= v.h.value <= 100.0
      && v.tax.Some? && 0.0 <= v.tax.value <= 100.0
  {
    assert Check(PositiveRule, v.ctc) == None <==> v.ctc.Some? && v.ctc.value > 0.0;
    assert CtcKey in AsWritten() && EpfKey in AsWritten() && HKey in AsWritten() && TaxKey in AsWritten();
  }

  /** The schema as written places no constraint on ETF. */
  lemma AsWrittenIgnoresEtf(v: Values, x: Option<real>)
    ensures Valid(AsWritten(), v.(etf := x)) <==> Valid(AsWritten(), v)
  {
    AsWrittenAccepts(v);
    AsWrittenAccepts(v.(etf := x));
  }

  /** The initial values fail the schema as written, on every key. */
  lemma InitialErrors()
    ensures Errors(AsWritten(), Initial()) ==
      map[CtcKey := Required, EpfKey := Required, HKey := Required, TaxKey := Required]
    ensures !Valid(AsWritten(), Initial())
  {
    var e := Errors(AsWritten(), Initial());
    assert e.Keys == {CtcKey, EpfKey, HKey, TaxKey};
  }

  /** Because ETF is never checked, the schema as written, on its own,
      accepts values whose contributions exceed the CTC (such values cannot
      be entered through the form, since they hold an H). */
  lemma AsWrittenAdmitsNegativeGross()
    ensures var v := Values(Some(1000.0), Some(0.0), Some(200.0), Some(0.0), Some(0.0));
      Valid(AsWritten(), v) && Submit(AsWritten(), v) == Some(Salary.Results(-1000.0, -1000.0))
  {
    var v := Values(Some(1000.0), Some(0.0), Some(200.0), Some(0.0), Some(0.0));
    AsWrittenAccepts(v);
  }

  /** As written, no state the form can reach passes: H is always missing, so
      the salary arithmetic never runs. */
  lemma AsWrittenNeverSubmits(v: Values)
    requires Reachable(v)
    ensures HKey in Errors(AsWritten(), v) && Errors(AsWritten(), v)[HKey] == Required
    ensures Submit(AsWritten(), v) == None
  {
    ReachableIffNoH(v);
    assert HKey in AsWritten();
  }

  /** The corrected schema accepts exactly: a positive CTC, and EPF, ETF and
      Tax present and within [0, 100]. */
  lemma CorrectedAccepts(v: Values)
    ensures Valid(Corrected(), v) <==>
      && v.ctc.Some? && v.ctc.value > 0.0
      && v.epf.Some? && 0.0 <= v.epf.value <= 100.0
      && v.etf.Some? && 0.0 <= v.etf.value <= 100.0
      && v.tax.Some? && 0.0 <= v.tax.value <= 100.0
  {
    assert Check(PositiveRule, v.ctc) == None <==> v.ctc.Some? && v.ctc.value > 0.0;
    assert CtcKey in Corrected() && EpfKey in Corrected() && EtfKey in Corrected() && TaxKey in Corrected();
  }

  /** With the corrected schema, every set of values it accepts can be
      entered through the form and submitted, and the submission runs the
      salary arithmetic on them. */
  lemma CorrectedSubmits(v: Values)
    requires Valid(Corrected(), v)
    ensures Reachable(v.(h := None))
    ensures Submit(Corrected(), v.(h := None)) == Some(OnSubmit(v))
  {
    ReachableIffNoH(v.(h := None));
    CorrectedAccepts(v);
    CorrectedAccepts(v.(h := None));
    OnSubmitIgnoresH(v, None);
  }

  /** What the corrected schema guarantees about a submission: the gross
      salary lies within [-CTC, CTC]; it is non-negative exactly when
      EPF + ETF is at most 100; and then the net salary lies in [0, gross]. */
  lemma CorrectedBounds(v: Values)
    requires Valid(Corrected(), v)
    ensures var r := OnSubmit(v);
      && -Number(v.ctc) <= r.gross <= Number(v.ctc)
      && (0.0 <= r.gross <==> Number(v.epf) + Number(v.etf) <= 100.0)
      && (0.0 <= r.gross ==> 0.0 <= r.net <= r.gross)
  {
    CorrectedAccepts(v);
    var i := ToInputs(v);
    Salary.GrossBounds(i);
    var j := i.(epf := 100.0, etf := 100.0);
    Salary.GrossAntitone(i, j);
    assert Salary.Gross(j) == -i.ctc;
    if Salary.Gross(i) >= 0.0 {
      Salary.NetBounds(i);
    }
  }

  /** Even the corrected schema lets EPF + ETF exceed 100, which makes the
      gross salary negative. */
  lemma CorrectedAdmitsNegativeGross()
    ensures var v := Values(Some(1000.0), Some(60.0), Some(60.0), Some(10.0), None);
      Valid(Corrected(), v) && OnSubmit(v).gross == -200.0 && OnSubmit(v).net == -180.0
  {
    var v := Values(Some(1000.0), Some(60.0), Some(60.0), Some(10.0), None);
    CorrectedAccepts(v);
  }
}
