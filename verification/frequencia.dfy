/**
 * Timesheet arithmetic of `FrequenciaDia`: the minutes between two clock
 * times of the same day (wrapping past midnight), the closed worked minutes,
 * the balance against the expected day, and the `HH:MM` rendering of a
 * signed number of minutes.
 */
module Frequencia {
  import opened Wrappers
  import opened Text

  /** A clock time of the day, in whole seconds after midnight. */
  type Hora = s: int | 0 <= s < 86400

  /**
   * `_diff_minutes`: 0 when either time is missing; otherwise the whole minutes
   * from ini to fim (Python's `//` by 60, a floor, like Dafny's `/` by a
   * positive divisor), plus a day when that is negative.
   */
  function DiffMinutos(ini: Option<Hora>, fim: Option<Hora>): (m: int)
    ensures 0 <= m < 1440
    ensures ini.None? || fim.None? ==> m == 0
  {
    if ini.None? || fim.None? then 0
    else
      var mins := (fim.value - ini.value) / 60;
      if mins < 0 then mins + 24 * 60 else mins
  }

  /**
   * The result is the whole minutes a 24-hour clock must run forward to go
   * from ini to fim: the forward distance in seconds, modulo a day, divided
   * by 60.
   */
  lemma DiffMinutosAvanco(ini: Hora, fim: Hora)
    ensures DiffMinutos(Some(ini), Some(fim)) == ((fim - ini) % 86400) / 60
  {
    if fim < ini {
      assert (fim - ini) % 86400 == fim - ini + 86400;
      assert (fim - ini + 86400) / 60 == (fim - ini) / 60 + 1440;
    }
  }

  /** For times on whole minutes, running the clock forward by the result from ini reaches fim. */
  lemma DiffMinutosAlcanca(ini: Hora, fim: Hora)
    requires ini % 60 == 0 && fim % 60 == 0
    ensures (ini + 60 * DiffMinutos(Some(ini), Some(fim))) % 86400 == fim
  {
    DiffMinutosAvanco(ini, fim);
    var d := (fim - ini) % 86400;
    assert d % 60 == 0;
    assert 60 * (d / 60) == d;
    if fim < ini {
      assert d == fim - ini + 86400;
    }
  }

  /** `minutos_trabalhados_fechado`: the morning period plus the afternoon period, each 0 unless closed. */
  function MinutosFechados(e1: Option<Hora>, s1: Option<Hora>, e2: Option<Hora>, s2: Option<Hora>): (m: int)
    ensures 0 <= m < 2 * 1440
    ensures s1.None? && s2.None? ==> m == 0
  {
    DiffMinutos(e1, s1) + DiffMinutos(e2, s2)
  }

  /** `minutos_previstos`: the day's override when set and non-zero, else the employee's daily hours. */
  function MinutosPrevistos(override: Option<nat>, jornada: nat): (m: nat)
    ensures override.Some? && override.value > 0 ==> m == override.value
    ensures override.None? || override.value == 0 ==> m == jornada
  {
    if override.Some? && override.value != 0 then override.value else jornada
  }

  /** `saldo_minutos`: closed worked minutes minus the expected ones; never below minus the expected day. */
  function SaldoMinutos(e1: Option<Hora>, s1: Option<Hora>, e2: Option<Hora>, s2: Option<Hora>,
                        override: Option<nat>, jornada: nat): (m: int)
    ensures 0 <= m + MinutosPrevistos(override, jornada) < 2 * 1440
    ensures s1.None? && s2.None? ==> m + MinutosPrevistos(override, jornada) == 0
  {
    MinutosFechados(e1, s1, e2, s2) - MinutosPrevistos(override, jornada)
  }

  /** `fmt_hhmm`: a sign for negative values, then hours and minutes of the absolute value, each at least two digits. */
  function FmtHhmm(minutos: int): (s: string)
    ensures |s| >= 5
    ensures s[0] == '-' <==> minutos < 0
  {
    var m := if minutos < 0 then -minutos else minutos;
    (if minutos < 0 then "-" else "") + Pad2(m / 60) + ":" + Pad2(m % 60)
  }

  /** Reading a `[-]H..H:MM` string back into signed minutes. */
  function LerHhmm(s: string): (r: Option<int>)
  {
    var neg := |s| > 0 && s[0] == '-';
    var t := if neg then s[1..] else s;
    if |t| >= 4 && t[|t| - 3] == ':' && AllDigits(t[..|t| - 3]) && AllDigits(t[|t| - 2..]) then
      var v := DigitsValue(t[..|t| - 3]) * 60 + DigitsValue(t[|t| - 2..]);
      Some(if neg then -v else v)
    else None
  }

  /** A two-digit minute field has exactly two characters. */
  lemma Pad2Minutos(mi: nat)
    requires mi < 60
    ensures |Pad2(mi)| == 2
  {
    if mi >= 10 {
      assert NatToString(mi) == NatToString(mi / 10) + [DigitChar(mi % 10)];
    }
  }

  /** The unsigned part of the rendering reads back as hours and minutes. */
  lemma CorpoRoundTrip(m: nat, t: string)
    requires t == Pad2(m / 60) + ":" + Pad2(m % 60)
    ensures |t| >= 4 && t[0] != '-' && t[|t| - 3] == ':'
    ensures AllDigits(t[..|t| - 3]) && AllDigits(t[|t| - 2..])
    ensures DigitsValue(t[..|t| - 3]) * 60 + DigitsValue(t[|t| - 2..]) == m
  {
    var h, mi := Pad2(m / 60), Pad2(m % 60);
    Pad2Minutos(m % 60);
    Pad2RoundTrip(m / 60);
    Pad2RoundTrip(m % 60);
    assert t[..|t| - 3] == h;
    assert t[|t| - 2..] == mi;
  }

  /** The rendering loses nothing: reading it back gives the minutes. */
  lemma FmtHhmmRoundTrip(minutos: int)
    ensures LerHhmm(FmtHhmm(minutos)) == Some(minutos)
  {
    var m := if minutos < 0 then -minutos else minutos;
    var t := Pad2(m / 60) + ":" + Pad2(m % 60);
    if minutos < 0 {
      assert FmtHhmm(minutos) == "-" + t;
      LerComSinal(m, t);
    } else {
      assert FmtHhmm(minutos) == t;
      LerSemSinal(m, t);
    }
  }

  /** An unsigned rendering reads back as its minutes. */
  lemma LerSemSinal(m: nat, t: string)
    requires t == Pad2(m / 60) + ":" + Pad2(m % 60)
    ensures LerHhmm(t) == Some(m)
  {
    CorpoRoundTrip(m, t);
  }

  /** A rendering behind a minus sign reads back as minus its minutes. */
  lemma LerComSinal(m: nat, t: string)
    requires t == Pad2(m / 60) + ":" + Pad2(m % 60)
    ensures LerHhmm("-" + t) == Some(-(m as int))
  {
    CorpoRoundTrip(m, t);
    var s := "-" + t;
    assert s[0] == '-' && s[1..] == t;
  }

  /** Distinct minute counts render differently. */
  lemma FmtHhmmInjective(a: int, b: int)
    requires FmtHhmm(a) == FmtHhmm(b)
    ensures a == b
  {
    FmtHhmmRoundTrip(a);
    FmtHhmmRoundTrip(b);
  }
}
