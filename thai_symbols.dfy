/** The 41 consonant characters shared by the two catalogues, in catalogue order, with
    the lookup that shows them pairwise distinct. Comparing every pair of catalogue entries
    at once is beyond the solver; this list and its inverse keep each comparison small. */
module ThaiSymbols {
  const SymbolChars: seq<char> := [
    'ก', 'จ', 'ด', 'ฎ', 'ต', 'ฏ', 'บ', 'ป', 'อ', 'ข', 'ฉ', 'ถ', 'ฐ', 'ผ',
    'ฝ', 'ศ', 'ษ', 'ส', 'ห', 'ค', 'ฆ', 'ช', 'ฌ', 'ท', 'ธ', 'ฒ', 'พ', 'ภ',
    'ฟ', 'ซ', 'ฮ', 'ง', 'น', 'ณ', 'ม', 'ย', 'ญ', 'ร', 'ล', 'ฬ', 'ว']

  /** The index of `c` in `SymbolChars`, or -1. */
  function PositionOf(c: char): int {
    if c == 'ก' then 0
    else if c == 'จ' then 1
    else if c == 'ด' then 2
    else if c == 'ฎ' then 3
    else if c == 'ต' then 4
    else if c == 'ฏ' then 5
    else if c == 'บ' then 6
    else if c == 'ป' then 7
    else if c == 'อ' then 8
    else if c == 'ข' then 9
    else if c == 'ฉ' then 10
    else if c == 'ถ' then 11
    else if c == 'ฐ' then 12
    else if c == 'ผ' then 13
    else if c == 'ฝ' then 14
    else if c == 'ศ' then 15
    else if c == 'ษ' then 16
    else if c == 'ส' then 17
    else if c == 'ห' then 18
    else if c == 'ค' then 19
    else if c == 'ฆ' then 20
    else if c == 'ช' then 21
    else if c == 'ฌ' then 22
    else if c == 'ท' then 23
    else if c == 'ธ' then 24
    else if c == 'ฒ' then 25
    else if c == 'พ' then 26
    else if c == 'ภ' then 27
    else if c == 'ฟ' then 28
    else if c == 'ซ' then 29
    else if c == 'ฮ' then 30
    else if c == 'ง' then 31
    else if c == 'น' then 32
    else if c == 'ณ' then 33
    else if c == 'ม' then 34
    else if c == 'ย' then 35
    else if c == 'ญ' then 36
    else if c == 'ร' then 37
    else if c == 'ล' then 38
    else if c == 'ฬ' then 39
    else if c == 'ว' then 40
    else -1
  }

  lemma CharPositionFrom0(i: int)
    requires 0 <= i < 14
    ensures PositionOf(SymbolChars[i]) == i
  {
    if i == 0 {}
    else if i == 1 {}
    else if i == 2 {}
    else if i == 3 {}
    else if i == 4 {}
    else if i == 5 {}
    else if i == 6 {}
    else if i == 7 {}
    else if i == 8 {}
    else if i == 9 {}
    else if i == 10 {}
    else if i == 11 {}
    else if i == 12 {}
    else if i == 13 {}
  }

  lemma CharPositionFrom14(i: int)
    requires 14 <= i < 28
    ensures PositionOf(SymbolChars[i]) == i
  {
    if i == 14 {}
    else if i == 15 {}
    else if i == 16 {}
    else if i == 17 {}
    else if i == 18 {}
    else if i == 19 {}
    else if i == 20 {}
    else if i == 21 {}
    else if i == 22 {}
    else if i == 23 {}
    else if i == 24 {}
    else if i == 25 {}
    else if i == 26 {}
    else if i == 27 {}
  }

  lemma CharPositionFrom28(i: int)
    requires 28 <= i < 41
    ensures PositionOf(SymbolChars[i]) == i
  {
    if i == 28 {}
    else if i == 29 {}
    else if i == 30 {}
    else if i == 31 {}
    else if i == 32 {}
    else if i == 33 {}
    else if i == 34 {}
    else if i == 35 {}
    else if i == 36 {}
    else if i == 37 {}
    else if i == 38 {}
    else if i == 39 {}
    else if i == 40 {}
  }

  /** `PositionOf` inverts the list. */
  lemma CharPosition(i: int)
    requires 0 <= i < 41
    ensures PositionOf(SymbolChars[i]) == i
  {
    if i < 14 { CharPositionFrom0(i); }
    else if i < 28 { CharPositionFrom14(i); }
    else { CharPositionFrom28(i); }
  }

  /** No character occurs twice in the list. */
  lemma SymbolCharsDistinct()
    ensures |SymbolChars| == 41
    ensures forall i, j | 0 <= i < j < |SymbolChars| :: SymbolChars[i] != SymbolChars[j]
  {
    forall i, j | 0 <= i < j < |SymbolChars| ensures SymbolChars[i] != SymbolChars[j] {
      CharPosition(i);
      CharPosition(j);
    }
  }
}
