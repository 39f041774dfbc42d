/** Gold under two names at one broker, and the spellings of a gold signal. */
module GoldSymbols {
  import opened Domain
  import opened Trading
  import opened Symbols

  const NAME := "XAUUSD"

  const OTHER := "XAUUSDm"

  const GOLD: Spec := SpecData(NAME, NAME, "XAU", "USD", 1.0, 1.0, 1.0, 1.0, 1.0, 1.0, 1.0, 0, true)

  const TWIN: Spec := SpecData(OTHER, NAME, "XAU", "USD", 1.0, 1.0, 1.0, 1.0, 1.0, 1.0, 1.0, 0, true)

  const LISTED := [GOLD, TWIN]

  const SYMBOLS := map[NAME := GOLD, OTHER := TWIN]

  const GOLDS := {NAME, OTHER}

  /** Both spellings of a gold signal resolve to the plain name. */
  predicate Spelling(name: string) {
    name == NAME || name == "GOLD"
  }

  predicate Capitals(text: string) {
    forall i :: 0 <= i < |text| ==> 'A' <= text[i] <= 'Z'
  }

  lemma CapitalsStay(text: string)
    requires Capitals(text)
    ensures Upper(text) == text && Compact(text) == text
  {
    assert Upper(text) == text;
    forall i | 0 <= i < |text|
      ensures !IsSeparator(text[i])
    {
      assert 'A' <= text[i] <= 'Z';
    }
    CompactPlain(text);
  }

  lemma PlainSpelling(name: string)
    requires Spelling(name)
    ensures Upper(name) == name && Compact(name) == name
  {
    hide Upper, Compact;
    if name == NAME {
      assert name[0] == 'X' && name[1] == 'A' && name[2] == 'U' && name[3] == 'U' && name[4] == 'S' && name[5] == 'D';
    } else {
      assert name[0] == 'G' && name[1] == 'O' && name[2] == 'L' && name[3] == 'D';
    }
    assert Capitals(name);
    CapitalsStay(name);
  }

  lemma UpperOther()
    ensures Upper(OTHER) == "XAUUSDM"
  {
    var other, upper := OTHER, "XAUUSDM";
    assert |Upper(other)| == |upper| == 7;
    assert other[..6] == upper[..6] == NAME && other[6] == 'm' && upper[6] == 'M';
    PlainSpelling(NAME);
    forall i | 0 <= i < 7
      ensures Upper(other)[i] == upper[i]
    {
      if i < 6 {
        assert other[i] == NAME[i] == Upper(NAME)[i];
      }
    }
  }

  lemma GoldRanks()
    ensures Rank(GOLD, NAME) == Some(400) && Rank(TWIN, NAME) == Some(350)
  {
    hide Upper, NamesPair, Suffixed, Compact;
    PlainSpelling(NAME);
    UpperOther();
    assert "XAUUSDM" != NAME;
  }

  /** Either spelling resolves to the plain name. */
  lemma GoldResolves(name: string)
    requires Spelling(name)
    ensures Resolve(name, LISTED) == Ok(GOLD)
  {
    hide Rank, Resolve, Upper, Compact;
    PlainSpelling(name);
    GoldRanks();
    assert Canonical(name) == NAME;
    hide Canonical;
    assert LISTED[0] == GOLD && LISTED[1] == TWIN;
    assert Outranks(LISTED, NAME, 0);
    ResolveExact(name, LISTED);
  }

  lemma AliasIsAnother(spec: Spec)
    requires spec.canonicalSymbol == NAME && spec.baseCurrency == "XAU"
    ensures !SameInstrument(spec, "GOLD")
  {
    hide Compact;
    PlainSpelling(NAME);
    var base, alias := "XAU", "GOLD";
    assert Upper(base)[0] == 'X' && alias[..3][0] == 'G';
    hide Upper;
    assert |NAME| == 6 && |alias| == 4;
  }

  lemma NameIsItself(spec: Spec)
    requires spec.canonicalSymbol == NAME
    ensures SameInstrument(spec, NAME)
  {
    hide Upper, NamesPair;
    PlainSpelling(NAME);
  }

  /** The plain name stands for both of the broker's names, the alias for neither. */
  lemma GoldNames()
    ensures Equivalents(SYMBOLS, Upper(NAME)) == GOLDS && Equivalents(SYMBOLS, Upper("GOLD")) == {}
  {
    hide Upper, SameInstrument, Compact;
    PlainSpelling(NAME);
    PlainSpelling("GOLD");
    AliasIsAnother(GOLD);
    AliasIsAnother(TWIN);
    NameIsItself(GOLD);
    NameIsItself(TWIN);
    assert SYMBOLS[NAME] == GOLD && SYMBOLS[OTHER] == TWIN;
  }
}
