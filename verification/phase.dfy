/**
 * Bill-of-materials phase resolution: at which production step (cutting or
 * sewing) a material of a variant's technical sheet is consumed.
 */
module Phase {
  import opened Text

  const Corte := "CORTE"
  const Costura := "COSTURA"
  const Auto := "AUTO"

  /**
   * `_resolver_fase_item`. A configured phase other than "AUTO" wins; an empty
   * or "AUTO" configuration falls back to the material category: "tecido"
   * (fabric, after trimming and lower-casing) is cut, everything else is sewn.
   * A missing category name or configuration is passed as "".
   */
  function ResolverFase(categoria: string, faseConfig: string): (r: string)
    ensures r == faseConfig || r == Corte || r == Costura
  {
    if faseConfig != "" && faseConfig != Auto then faseConfig
    else if Lower(Strip(categoria)) == "tecido" then Corte
    else Costura
  }

  /** Spells "tecido" in any mixture of ASCII upper and lower case. */
  predicate SpellsTecido(t: string)
  {
    |t| == 6 && forall i :: 0 <= i < 6 ==> t[i] == "tecido"[i] || t[i] == "TECIDO"[i]
  }

  /** The only code points whose lower case is an ASCII lower-case letter are that letter and its capital. */
  lemma LowerCharToAsciiLetter(c: char, x: char)
    requires 'a' <= x <= 'z'
    ensures LowerChar(c) == x <==> c == x || c == (x as int - 32) as char
  {
  }

  /** `lower()` gives "tecido" exactly for the case variants of the word, so no accented spelling qualifies. */
  lemma LowerIsTecido(t: string)
    ensures Lower(t) == "tecido" <==> SpellsTecido(t)
  {
    if |t| == 6 {
      forall i | 0 <= i < 6
        ensures LowerChar(t[i]) == "tecido"[i] <==> t[i] == "tecido"[i] || t[i] == "TECIDO"[i]
      {
        LowerCharToAsciiLetter(t[i], "tecido"[i]);
      }
      if SpellsTecido(t) {
        assert Lower(t) == "tecido";
      }
    }
  }

  /** An explicit phase other than AUTO is returned unchanged, whatever the category. */
  lemma ExplicitPhaseWins(categoria: string, faseConfig: string)
    requires faseConfig != "" && faseConfig != Auto
    ensures ResolverFase(categoria, faseConfig) == faseConfig
  {
  }

  /**
   * With AUTO (or nothing) configured, the material is cut exactly when its
   * trimmed category spells "tecido" in some mixture of case, and sewn otherwise.
   */
  lemma AutoPhaseByCategory(categoria: string, faseConfig: string)
    requires faseConfig == "" || faseConfig == Auto
    ensures ResolverFase(categoria, faseConfig) == Corte <==> SpellsTecido(Strip(categoria))
    ensures ResolverFase(categoria, faseConfig) == Costura <==> !SpellsTecido(Strip(categoria))
  {
    LowerIsTecido(Strip(categoria));
  }

  /** Every configuration offered by the form resolves to one of the two consuming phases. */
  lemma ResolvedPhaseIsCutOrSew(categoria: string, faseConfig: string)
    requires faseConfig in {"", Auto, Corte, Costura}
    ensures ResolverFase(categoria, faseConfig) in {Corte, Costura}
  {
  }

  /** Surrounding blanks and capitals still mean fabric. */
  lemma PaddedCapitalsAreFabric(c: string)
    requires c == "  TeCiDo "
    ensures ResolverFase(c, Auto) == Corte
  {
    var w := "TeCiDo";
    assert SpellsTecido(w);
    assert c == "  " + w + " ";
    StripUntouched(w);
    StripPadded("  ", w, " ");
    AutoPhaseByCategory(c, Auto);
  }

  /** An accented spelling is not folded: "Tecidó" is sewn. */
  lemma AccentedIsNotFabric(c: string)
    requires c == "Tecidó"
    ensures ResolverFase(c, Auto) == Costura
  {
    assert !SpellsTecido(c) by {
      assert c[5] == 'ó';
    }
    StripUntouched(c);
    AutoPhaseByCategory(c, Auto);
  }
}
