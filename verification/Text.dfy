/** ASCII text as the parsers see it: stripped of surrounding blanks and lower-cased. */
module Text {

  predicate IsSpace(c: char) { c == ' ' || 9 <= c as int <= 13 || 28 <= c as int <= 31 }

  function LowerChar(c: char): char {
    if 'A' <= c <= 'Z' then (c as int + 32) as char else c
  }

  function Lower(s: string): (r: string)
    ensures |r| == |s|
    ensures forall i :: 0 <= i < |s| ==> r[i] == LowerChar(s[i])
  {
    seq(|s|, i requires 0 <= i < |s| => LowerChar(s[i]))
  }

  function LStrip(s: string): string {
    if s != "" && IsSpace(s[0]) then LStrip(s[1..]) else s
  }

  function RStrip(s: string): string {
    if s != "" && IsSpace(s[|s| - 1]) then RStrip(s[..|s| - 1]) else s
  }

  function Canon(s: string): string { Lower(RStrip(LStrip(s))) }

  /** Text that canonicalising leaves alone. */
  predicate IsCanon(s: string) {
    && (s != "" ==> !IsSpace(s[0]) && !IsSpace(s[|s| - 1]))
    && forall i :: 0 <= i < |s| ==> LowerChar(s[i]) == s[i]
  }

  lemma {:induction false} CanonFixed(s: string)
    requires IsCanon(s)
    ensures Canon(s) == s
  {
    assert LStrip(s) == s && RStrip(s) == s;
  }

  lemma {:induction false} RStripEnds(s: string)
    ensures RStrip(s) <= s
    ensures RStrip(s) != "" ==> !IsSpace(RStrip(s)[|RStrip(s)| - 1])
  {
    if s != "" && IsSpace(s[|s| - 1]) {
      RStripEnds(s[..|s| - 1]);
    }
  }

  lemma {:induction false} LStripEnds(s: string)
    ensures LStrip(s) != "" ==> !IsSpace(LStrip(s)[0])
  {
    if s != "" && IsSpace(s[0]) {
      LStripEnds(s[1..]);
    }
  }

  lemma {:induction false} LowerSpace(c: char)
    ensures IsSpace(LowerChar(c)) <==> IsSpace(c)
    ensures LowerChar(LowerChar(c)) == LowerChar(c)
  {
  }

  /** Canonicalising twice changes nothing. */
  lemma {:induction false} CanonIdempotent(s: string)
    ensures IsCanon(Canon(s)) && Canon(Canon(s)) == Canon(s)
  {
    var l := LStrip(s);
    var r := RStrip(l);
    LStripEnds(s);
    RStripEnds(l);
    forall i | 0 <= i < |r| ensures LowerChar(Canon(s)[i]) == Canon(s)[i] && (IsSpace(Canon(s)[i]) <==> IsSpace(r[i])) {
      LowerSpace(r[i]);
    }
    CanonFixed(Canon(s));
  }
}
