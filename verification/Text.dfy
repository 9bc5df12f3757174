/** Trimming and upper-casing of ASCII text, as `String.prototype.trim` and `toUpperCase` do it. */
module Text {

  predicate IsSpace(c: char) {
    c == ' ' || ('\t' <= c <= '\r')
  }

  /** The first position from i on without white space. */
  function Skip(s: string, i: nat): (k: nat)
    requires i <= |s|
    ensures i <= k <= |s|
    decreases |s| - i
  {
    if i < |s| && IsSpace(s[i]) then Skip(s, i + 1) else i
  }

  /** How much of the first i characters is left without the white space at their end. */
  function Keep(s: string, i: nat): (k: nat)
    requires i <= |s|
    ensures k <= i
  {
    if 0 < i && IsSpace(s[i - 1]) then Keep(s, i - 1) else i
  }

  function TrimStart(s: string): string {
    s[Skip(s, 0)..]
  }

  function TrimEnd(s: string): string {
    s[..Keep(s, |s|)]
  }

  function Trim(s: string): string {
    TrimEnd(TrimStart(s))
  }

  /** No white space at either end. */
  predicate Trimmed(s: string) {
    s == [] || (!IsSpace(s[0]) && !IsSpace(s[|s| - 1]))
  }

  lemma {:induction false} SkipStops(s: string, i: nat)
    requires i <= |s|
    ensures var k := Skip(s, i); k < |s| ==> !IsSpace(s[k])
    decreases |s| - i
  {
    if i < |s| && IsSpace(s[i]) {
      SkipStops(s, i + 1);
    }
  }

  lemma {:induction false} KeepStops(s: string, i: nat)
    requires i <= |s|
    ensures var k := Keep(s, i); k > 0 ==> !IsSpace(s[k - 1])
    ensures i > 0 && !IsSpace(s[0]) ==> Keep(s, i) > 0
  {
    if 0 < i && IsSpace(s[i - 1]) {
      KeepStops(s, i - 1);
    }
  }

  /** Trimming always yields trimmed text, and leaves text alone exactly when it is trimmed already. */
  lemma TrimIsProjection(s: string)
    ensures Trimmed(Trim(s))
    ensures Trim(Trim(s)) == Trim(s)
    ensures Trim(s) == s <==> Trimmed(s)
  {
    if Trimmed(s) {
      TrimmedStays(s);
    }
    TrimTrims(s);
    TrimmedStays(Trim(s));
  }

  lemma TrimTrims(s: string)
    ensures Trimmed(Trim(s))
  {
    var t := TrimStart(s);
    SkipStops(s, 0);
    assert t != [] ==> t[0] == s[Skip(s, 0)];
    KeepStops(t, |t|);
  }

  lemma TrimmedStays(s: string)
    requires Trimmed(s)
    ensures Trim(s) == s
  {
    assert TrimStart(s) == s;
    assert TrimEnd(s) == s;
  }

  /** Text that begins with something else is not all white space. */
  lemma TrimKeepsFirst(s: string)
    requires s != [] && !IsSpace(s[0])
    ensures Trim(s) != []
  {
    assert TrimStart(s) == s;
    KeepStops(s, |s|);
  }

  /** A space before the text makes no difference. */
  lemma LeadingSpace(s: string)
    ensures Trim(" " + s) == Trim(s) && " " + s != s
  {
    SkipShifts(s, 0);
    assert TrimStart(" " + s) == TrimStart(s);
    assert |" " + s| == |s| + 1;
  }

  lemma {:induction false} SkipShifts(s: string, i: nat)
    requires i <= |s|
    ensures Skip(" " + s, i + 1) == Skip(s, i) + 1
    decreases |s| - i
  {
    assert i < |s| ==> (" " + s)[i + 1] == s[i];
    if i < |s| && IsSpace(s[i]) {
      SkipShifts(s, i + 1);
    }
  }

  lemma NothingToTrim(s: string)
    requires s != [] && !IsSpace(s[0]) && !IsSpace(s[|s| - 1])
    ensures Trim(s) == s
  {
    TrimmedStays(s);
  }

  function UpperChar(c: char): char {
    if 'a' <= c <= 'z' then c - 'a' + 'A' else c
  }

  function Upper(s: string): string {
    seq(|s|, i requires 0 <= i < |s| => UpperChar(s[i]))
  }

  lemma UpperIsProjection(s: string)
    ensures Upper(Upper(s)) == Upper(s) && |Upper(s)| == |s|
    ensures Trimmed(Upper(s)) <==> Trimmed(s)
  {
    assert forall i :: 0 <= i < |s| ==> Upper(Upper(s))[i] == Upper(s)[i];
  }

  /** A token: trimmed, then upper-cased. */
  function Token(s: string): string {
    Upper(Trim(s))
  }

  lemma TokenIsProjection(s: string)
    ensures Trimmed(Token(s))
    ensures Token(Token(s)) == Token(s)
    ensures Trim(Token(s)) == Token(s)
  {
    TrimIsProjection(s);
    UpperIsProjection(Trim(s));
    TrimIsProjection(Token(s));
  }
}
