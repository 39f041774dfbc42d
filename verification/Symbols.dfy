/** Resolving the text of a signal to one of the broker's symbols. */
module Symbols {
  import opened Domain
  import opened Trading

  predicate IsSeparator(c: char) {
    c in {' ', '\t', '\n', '\U{0B}', '\U{0C}', '\r', '/', '_', '-'}
  }

  function Compact(text: string): string {
    if text == [] then [] else (if IsSeparator(text[0]) then [] else [text[0]]) + Compact(text[1..])
  }

  /** The text without separators, in upper case, with its one alias replaced. */
  function Canonical(text: string): string {
    var normalized := Upper(Compact(text));
    if normalized == "GOLD" then "XAUUSD" else normalized
  }

  function KnownAliases(canonical: string): set<string> {
    if canonical == "XAUUSD" then {"GOLD", "XAUUSDM", "XAUUSDC", "XAUUSD247M", "XAUUSD.PRO"} else {}
  }

  /** The name continues the text with letters, digits and dots only. */
  predicate Suffixed(name: string, canonical: string) {
    canonical <= name && forall i :: |canonical| <= i < |name| ==>
      'A' <= name[i] <= 'Z' || '0' <= name[i] <= '9' || name[i] == '.'
  }

  /** How well a symbol fits the text, if at all. */
  function Score(spec: Spec, canonical: string): Option<int> {
    var name := Upper(spec.name);
    if name == canonical then Some(400)
    else if name in KnownAliases(canonical) then Some(350)
    else if NamesPair(spec, canonical) then Some(if canonical <= Compact(name) then 310 else 300)
    else if Suffixed(Compact(name), canonical) then Some(200)
    else None
  }

  /** The score of a symbol that may be traded. */
  function Rank(spec: Spec, canonical: string): Option<int> {
    if spec.tradeEnabled then Score(spec, canonical) else None
  }

  /** The highest rank so far, a symbol that has it, and whether it is the only one. */
  datatype Leader = Nobody | Leading(rank: int, spec: Spec, alone: bool)

  function LeaderOf(symbols: seq<Spec>, canonical: string): Leader {
    if symbols == [] then Nobody
    else
      var before, last := LeaderOf(symbols[..|symbols| - 1], canonical), symbols[|symbols| - 1];
      var rank := Rank(last, canonical);
      if rank.None? then before
      else if before.Nobody? || rank.value > before.rank then Leading(rank.value, last, true)
      else if rank.value == before.rank then before.(alone := false)
      else before
  }

  /** The one tradeable symbol that fits the text best, or an error when there is none or more than one. */
  function Resolve(text: string, symbols: seq<Spec>): Result<Spec> {
    var canonical := Canonical(text);
    if canonical == "" then Err("canonical symbol is empty")
    else
      var leader := LeaderOf(symbols, canonical);
      if leader.Nobody? then Err("no tradeable broker symbol resolves to " + canonical)
      else if !leader.alone then Err("ambiguous broker symbols for " + canonical)
      else Ok(leader.spec)
  }

  // ---------------------------------------------------------------------------
  // What is resolved
  // ---------------------------------------------------------------------------

  /** Symbol `i` may be traded and fits the text better than every other one that may. */
  ghost predicate Outranks(symbols: seq<Spec>, canonical: string, i: nat) {
    && i < |symbols| && Rank(symbols[i], canonical).Some?
    && (forall j :: 0 <= j < |symbols| && j != i && Rank(symbols[j], canonical).Some? ==>
          Rank(symbols[j], canonical).value < Rank(symbols[i], canonical).value)
  }

  /** The leader is among the best, alone exactly when it outranks all others. */
  lemma {:induction false} LeaderIsBest(symbols: seq<Spec>, canonical: string) returns (at: nat)
    ensures LeaderOf(symbols, canonical).Nobody? <==>
            forall j :: 0 <= j < |symbols| ==> Rank(symbols[j], canonical).None?
    ensures var leader := LeaderOf(symbols, canonical);
            leader.Leading? ==>
              && at < |symbols| && symbols[at] == leader.spec && Rank(leader.spec, canonical) == Some(leader.rank)
              && (forall j :: 0 <= j < |symbols| && Rank(symbols[j], canonical).Some? ==>
                    Rank(symbols[j], canonical).value <= leader.rank)
              && (leader.alone <==> Outranks(symbols, canonical, at))
  {
    hide Rank;
    at := 0;
    if symbols != [] {
      var n := |symbols| - 1;
      var front := symbols[..n];
      at := LeaderIsBest(front, canonical);
      assert forall j :: 0 <= j < n ==> front[j] == symbols[j];
      var before, leader := LeaderOf(front, canonical), LeaderOf(symbols, canonical);
      if before.Nobody? || leader.rank > before.rank {
        at := if leader.Leading? then n else 0;
      }
    }
  }

  /** A text resolves to a symbol exactly when that symbol fits it better than every other tradeable one. */
  lemma ResolveExact(text: string, symbols: seq<Spec>)
    ensures Resolve(text, symbols).Ok? <==>
              Canonical(text) != "" && exists i: nat :: Outranks(symbols, Canonical(text), i)
    ensures forall i: nat :: Canonical(text) != "" && Outranks(symbols, Canonical(text), i) ==>
              Resolve(text, symbols) == Ok(symbols[i])
  {
    var canonical := Canonical(text);
    var at := LeaderIsBest(symbols, canonical);
    hide Rank, LeaderOf, Canonical;
    var leader := LeaderOf(symbols, canonical);
    forall i: nat | Outranks(symbols, canonical, i)
      ensures leader.Leading? && i == at
    {
      assert Rank(symbols[i], canonical).Some?;
    }
  }

  // ---------------------------------------------------------------------------
  // Spellings
  // ---------------------------------------------------------------------------

  lemma {:induction false} CompactPlain(text: string)
    requires forall i :: 0 <= i < |text| ==> !IsSeparator(text[i])
    ensures Compact(text) == text
  {
    hide IsSeparator;
    if text != [] {
      CompactPlain(text[1..]);
      assert text == [text[0]] + text[1..];
    }
  }

  // ---------------------------------------------------------------------------
  // The names of one instrument
  // ---------------------------------------------------------------------------

  predicate SameInstrument(spec: Spec, canonical: string) {
    Upper(spec.canonicalSymbol) == canonical || NamesPair(spec, canonical)
  }

  /** The broker's names for one instrument. */
  function Equivalents(symbols: map<string, Spec>, canonical: string): set<string> {
    set name | name in symbols && SameInstrument(symbols[name], canonical) :: symbols[name].name
  }
}
