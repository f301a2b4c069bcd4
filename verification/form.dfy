/**
  The calculator form's state and its submit handler.

  The form has four number inputs, CTC, EPF, ETF and Tax. A number input
  stores either the number typed into it or the empty string when the text
  does not parse, so a field holds `Some(x)` or `None` (the empty string).
  The validation schema also reads a fifth key, H, that no input writes and
  the initial values do not contain; it is kept here so that the schema can
  be stated over the values it actually sees.
 */
module Form {
  import Salary

  datatype Option<T> = None | Some(value: T)

  /** The four inputs the form renders. */
  datatype Field = CTC | EPF | ETF | Tax

  /** The form's values, plus the key H that only the schema mentions. */
  datatype Values = Values(ctc: Option<real>, epf: Option<real>, etf: Option<real>,
                           tax: Option<real>, h: Option<real>)

  /** One change of one input. */
  datatype Edit = Edit(field: Field, entry: Option<real>)

  /** The initial values: every input empty, and no H at all. */
  function Initial(): Values
  {
    Values(None, None, None, None, None)
  }

  function Get(v: Values, f: Field): Option<real>
  {
    match f
    case CTC => v.ctc
    case EPF => v.epf
    case ETF => v.etf
    case Tax => v.tax
  }

  /** Stores an entry in one input; the other inputs and H keep their values. */
  function Set(v: Values, f: Field, x: Option<real>): (r: Values)
    ensures Get(r, f) == x
    ensures forall g: Field :: g != f ==> Get(r, g) == Get(v, g)
    ensures r.h == v.h
  {
    match f
    case CTC => v.(ctc := x)
    case EPF => v.(epf := x)
    case ETF => v.(etf := x)
    case Tax => v.(tax := x)
  }

  /** The values after a sequence of edits, applied in order. */
  function ApplyEdits(v: Values, edits: seq<Edit>): Values
    decreases |edits|
  {
    if |edits| == 0 then v
    else ApplyEdits(Set(v, edits[0].field, edits[0].entry), edits[1..])
  }

  /** The values a user can bring the form to, starting from the initial values. */
  ghost predicate Reachable(v: Values)
  {
    exists edits: seq<Edit> :: ApplyEdits(Initial(), edits) == v
  }

  /** No edit changes H. */
  lemma {:induction false} EditsKeepH(v: Values, edits: seq<Edit>)
    ensures ApplyEdits(v, edits).h == v.h
    decreases |edits|
  {
    if |edits| > 0 {
      EditsKeepH(Set(v, edits[0].field, edits[0].entry), edits[1..]);
    }
  }

  /** A form state is reachable exactly when H is absent: the inputs can be
      given any entries, and H never appears. */
  lemma ReachableIffNoH(v: Values)
    ensures Reachable(v) <==> v.h == None
  {
    if Reachable(v) {
      var edits: seq<Edit> :| ApplyEdits(Initial(), edits) == v;
      EditsKeepH(Initial(), edits);
    }
    if v.h == None {
      var edits := [Edit(CTC, v.ctc), Edit(EPF, v.epf), Edit(ETF, v.etf), Edit(Tax, v.tax)];
      calc {
        ApplyEdits(Initial(), edits);
        ApplyEdits(Initial().(ctc := v.ctc), edits[1..]);
        ApplyEdits(Initial().(ctc := v.ctc).(epf := v.epf), edits[2..]);
        ApplyEdits(Initial().(ctc := v.ctc).(epf := v.epf).(etf := v.etf), edits[3..]);
        ApplyEdits(v, edits[4..]);
        v;
      }
    }
  }

  /** The conversion the submit handler applies to each entry: a number
      stays itself and the empty string becomes 0. */
  function Number(x: Option<real>): real
  {
    match x
    case Some(r) => r
    case None => 0.0
  }

  /** The numbers the submit handler computes with. */
  function ToInputs(v: Values): Salary.Inputs
  {
    Salary.Inputs(Number(v.ctc), Number(v.epf), Number(v.etf), Number(v.tax))
  }

  /** The submit handler: gross and net computed from the current values.
      H plays no part in it. */
  function OnSubmit(v: Values): (r: Salary.Results)
    ensures r.gross + Salary.Deductions(ToInputs(v)) == Number(v.ctc)
    ensures r.net + Salary.TaxOn(ToInputs(v)) == r.gross
  {
    Salary.Calculate(ToInputs(v))
  }

  /** The submit handler does not read H. */
  lemma OnSubmitIgnoresH(v: Values, x: Option<real>)
    ensures OnSubmit(v.(h := x)) == OnSubmit(v)
  {
  }

  /** An empty ETF input is charged as a 0% contribution. */
  lemma EmptyEtfIsZeroRate(v: Values)
    requires v.etf == None
    ensures OnSubmit(v).gross == Number(v.ctc) * (100.0 - Number(v.epf)) / 100.0
  {
  }
}
