/** Trimming of strings. */
module Text {

  /** The characters that trim() removes. */
  predicate White(c: char) {
    || '\t' <= c <= '\r' || c == ' ' || c == '\U{A0}' || c == '\U{1680}' || '\U{2000}' <= c <= '\U{200A}'
    || c == '\U{2028}' || c == '\U{2029}' || c == '\U{202F}' || c == '\U{205F}' || c == '\U{3000}' || c == '\U{FEFF}'
  }

  function TrimLeft(s: string, drop: char -> bool): (r: string)
    ensures r != "" ==> !drop(r[0])
    ensures |r| <= |s|
  {
    if s != "" && drop(s[0]) then TrimLeft(s[1..], drop) else s
  }

  /** Only what is to be dropped is, from the front. */
  lemma {:induction false} TrimLeftDrops(s: string, drop: char -> bool)
    ensures var r := TrimLeft(s, drop); r == s[|s| - |r|..] && forall i | 0 <= i < |s| - |r| :: drop(s[i])
  {
    if s != "" && drop(s[0]) {
      TrimLeftDrops(s[1..], drop);
      var r := TrimLeft(s, drop);
      assert forall i | 0 < i < |s| - |r| :: s[i] == s[1..][i - 1];
    }
  }

  function TrimRight(s: string, drop: char -> bool): (r: string)
    ensures r != "" ==> !drop(r[|r| - 1])
    ensures r <= s && forall i | |r| <= i < |s| :: drop(s[i])
  {
    if s != "" && drop(s[|s| - 1]) then TrimRight(s[..|s| - 1], drop) else s
  }

  function Trim(s: string, drop: char -> bool): string {
    TrimRight(TrimLeft(s, drop), drop)
  }

  const white := (c: char) => White(c)

  predicate IsBlank(s: string) {
    Trim(s, white) == ""
  }
}
