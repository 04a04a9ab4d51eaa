/** The uncertainty helper of caclulations.py: heisenberg_pair names the
    partner of a measured variable and computes its minimum uncertainty
    from ΔxΔp ≥ ħ/2 (and ΔEΔt ≥ ħ/2).  The value of ħ = h/2π is a
    parameter of the model; the speed of light is the source's constant. */
module Calculations {
  import opened Outcomes
  import opened Text

  /** c in nm/fs (caclulations.py:11) */
  const C: real := 299.792

  const Momentum: string := "momentum"
  const Position: string := "position"
  const Time: string := "time"
  const Energy: string := "energy"

  function InvalidNameMessage(lowered: string): string {
    "Invalid variable name: " + lowered + "."
  }

  /** The four tests of heisenberg_pair, in the order the source makes them. */
  predicate NamesPosition(v: string) { v == "c" || Contains(v, "pos") }
  predicate NamesMomentum(v: string) { v == "p" || Contains(v, "mom") }
  predicate NamesEnergy(v: string) { v == "e" || Contains(v, "ene") }
  predicate NamesTime(v: string) { v == "t" || Contains(v, "tim") }

  /** The pair variable and the conversion factor heisenberg_pair chooses
      for `variable` (lines 38-51): the first test the lower-cased name
      passes decides; a name passing none raises ValueError. */
  function Pairing(variable: string): (r: Result<(string, real)>)
    ensures r.Fault? <==>
      !(NamesPosition(Lower(variable)) || NamesMomentum(Lower(variable))
        || NamesEnergy(Lower(variable)) || NamesTime(Lower(variable)))
    ensures r.Fault? ==> r.error == ValueErrorWith(InvalidNameMessage(Lower(variable)))
    ensures r.Ok? ==> r.value.0 in {Momentum, Position, Time, Energy}
    ensures r.Ok? ==> (r.value.1 == C <==> r.value.0 in {Momentum, Position})
    ensures r.Ok? ==> (r.value.1 == 1.0 <==> r.value.0 in {Time, Energy})
  {
    var v := Lower(variable);
    if NamesPosition(v) then Ok((Momentum, C))
    else if NamesMomentum(v) then Ok((Position, C))
    else if NamesEnergy(v) then Ok((Time, 1.0))
    else if NamesTime(v) then Ok((Energy, 1.0))
    else Fault(ValueErrorWith(InvalidNameMessage(v)))
  }

  /** heisenberg_pair (lines 31-53): the partner's minimum uncertainty
      conv·ħ/(2·uncertainty) and its name.  A zero uncertainty raises
      ZeroDivisionError, after the name has been accepted. */
  function HeisenbergPair(uncertainty: real, variable: string, hbar: real): (r: Result<(real, string)>)
    ensures Pairing(variable).Fault? ==> r == Fault(Pairing(variable).error)
    ensures Pairing(variable).Ok? && uncertainty == 0.0 ==> r == Fault(ZeroDivisionError)
    ensures r.Ok? ==> Pairing(variable).Ok? && r.value.1 == Pairing(variable).value.0
    ensures r.Ok? ==> uncertainty != 0.0
                      && 2.0 * uncertainty * r.value.0 == Pairing(variable).value.1 * hbar
  {
    var (pair, conv) :- Pairing(variable);
    if uncertainty == 0.0 then Fault(ZeroDivisionError)
    else
      var value := conv * hbar / (2.0 * uncertainty);
      Ok((value, pair))
  }

  // ------------------------------------------------------------ properties

  lemma LowerChars(s: string)
    ensures forall i :: 0 <= i < |s| ==> Lower(s)[i] == LowerChar(s[i])
  {
  }

  lemma LowerIdempotent(s: string)
    ensures Lower(Lower(s)) == Lower(s)
  {
    LowerChars(s);
    LowerChars(Lower(s));
    assert forall i :: 0 <= i < |s| ==> LowerChar(LowerChar(s[i])) == LowerChar(s[i]);
  }

  /** Matching ignores case: a name and its lower-cased form pair alike. */
  lemma PairingIgnoresCase(variable: string)
    ensures Pairing(Lower(variable)) == Pairing(variable)
  {
    LowerIdempotent(variable);
  }

  lemma UpperThenLower(s: string)
    ensures Lower(Upper(s)) == Lower(s)
  {
    assert forall i :: 0 <= i < |s| ==> Lower(Upper(s))[i] == Lower(s)[i];
  }

  /** Writing a name in capitals does not change its pairing. */
  lemma PairingOfCapitals(variable: string)
    ensures Pairing(Upper(variable)) == Pairing(variable)
  {
    UpperThenLower(variable);
  }

  /** The first passing test wins: a name containing "pos" pairs with
      momentum even when it also contains "mom". */
  lemma PositionTestFirst()
    ensures Pairing("posmom") == Ok((Momentum, C))
  {
    var v := Lower("posmom");
    assert v == "posmom";
    assert OccursAt(v, "pos", 0);
    ContainsOccurs(v, "pos", 0);
  }

  lemma MomentumPairsWithPosition()
    ensures Pairing(Momentum) == Ok((Position, C))
  {
    LowerKeeps(Momentum);
    Absent(Momentum, "pos", 0);
    assert OccursAt(Momentum, "mom", 0);
    ContainsOccurs(Momentum, "mom", 0);
  }

  lemma PositionPairsWithMomentum()
    ensures Pairing(Position) == Ok((Momentum, C))
  {
    LowerKeeps(Position);
    assert OccursAt(Position, "pos", 0);
    ContainsOccurs(Position, "pos", 0);
  }

  lemma TimePairsWithEnergy()
    ensures Pairing(Time) == Ok((Energy, 1.0))
  {
    LowerKeeps(Time);
    Absent(Time, "pos", 0);
    Absent(Time, "mom", 1);
    Absent(Time, "ene", 1);
    assert OccursAt(Time, "tim", 0);
    ContainsOccurs(Time, "tim", 0);
  }

  lemma EnergyPairsWithTime()
    ensures Pairing(Energy) == Ok((Time, 1.0))
  {
    LowerKeeps(Energy);
    Absent(Energy, "pos", 0);
    Absent(Energy, "mom", 0);
    assert OccursAt(Energy, "ene", 0);
    ContainsOccurs(Energy, "ene", 0);
  }

  /** `w` occurs nowhere in `s` when one of its characters is missing from `s`. */
  lemma Absent(s: string, w: string, k: nat)
    requires k < |w| && w[k] !in s
    ensures !Contains(s, w)
  {
    IndexOfFirst(s, w);
    forall j: nat ensures !OccursAt(s, w, j) {
      if j + |w| <= |s| {
        assert s[j..j + |w|][k] == s[j + k];
      }
    }
  }

  /** The four pair names form two couples (momentum with position, time
      with energy), so pairing a result's name again gives back the first
      result. */
  lemma PairingTwice(variable: string)
    requires Pairing(variable).Ok?
    ensures var partner := Pairing(variable).value.0;
            Pairing(partner).Ok? && Pairing(Pairing(partner).value.0) == Pairing(variable)
  {
    MomentumPairsWithPosition();
    PositionPairsWithMomentum();
    TimePairsWithEnergy();
    EnergyPairsWithTime();
  }

  /** A name passing no test is refused with the lower-cased name in the message. */
  lemma UnknownNameRefused()
    ensures Pairing("X") == Fault(ValueErrorWith("Invalid variable name: x."))
  {
    var v := Lower("X");
    assert v == "x";
    Absent(v, "pos", 0);
    Absent(v, "mom", 0);
    Absent(v, "ene", 0);
    Absent(v, "tim", 0);
  }
}
