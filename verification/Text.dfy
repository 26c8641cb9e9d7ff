/** White space as the source's string trimming sees it. */
module Text {

  predicate IsSpace(c: char) {
    || c in "\t\n\r "
    || c == '\U{0B}' || c == '\U{0C}' || c == '\U{85}' || c == '\U{A0}' || c == '\U{1680}'
    || '\U{2000}' <= c <= '\U{200A}'
    || c == '\U{2028}' || c == '\U{2029}' || c == '\U{202F}' || c == '\U{205F}' || c == '\U{3000}'
  }

  /** What is left after the white space in front. */
  function TrimLeft(s: string): (r: string)
    ensures r == "" || !IsSpace(r[0])
  {
    if s == "" then "" else if IsSpace(s[0]) then TrimLeft(s[1..]) else s
  }

  /** What is left before the white space at the end. */
  function TrimRight(s: string): (r: string)
    ensures r <= s
    ensures r == "" || !IsSpace(r[|r| - 1])
  {
    if s == "" then "" else if IsSpace(s[|s| - 1]) then TrimRight(s[..|s| - 1]) else s
  }

  function Trim(s: string): (r: string)
    ensures r == "" || (!IsSpace(r[0]) && !IsSpace(r[|r| - 1]))
  {
    TrimRight(TrimLeft(s))
  }

  predicate AllSpace(s: string) {
    forall i :: 0 <= i < |s| ==> IsSpace(s[i])
  }

  lemma {:induction false} TrimLeftCuts(s: string) returns (cut: nat)
    ensures cut <= |s| && TrimLeft(s) == s[cut..] && AllSpace(s[..cut])
  {
    hide IsSpace;
    if s == "" || !IsSpace(s[0]) {
      cut := 0;
    } else {
      cut := TrimLeftCuts(s[1..]);
      assert s[1..][cut..] == s[cut + 1..] && s[..cut + 1] == [s[0]] + s[1..][..cut];
      cut := cut + 1;
    }
  }

  lemma {:induction false} TrimRightCuts(s: string)
    ensures TrimRight(s) <= s && AllSpace(s[|TrimRight(s)|..])
  {
    hide IsSpace;
    if s != "" && IsSpace(s[|s| - 1]) {
      var front, n := s[..|s| - 1], |TrimRight(s)|;
      TrimRightCuts(front);
      assert s[n..] == front[n..] + [s[|s| - 1]];
    }
  }

  /** Trimming cuts out a slice of the text, and everything cut off is white space. */
  lemma TrimIsASlice(s: string) returns (from: nat, to: nat)
    ensures from <= to <= |s| && Trim(s) == s[from..to] && AllSpace(s[..from]) && AllSpace(s[to..])
  {
    hide IsSpace, TrimLeft, TrimRight, AllSpace;
    from := TrimLeftCuts(s);
    to := from + |Trim(s)|;
    TrimRightCuts(TrimLeft(s));
    assert s[to..] == s[from..][|Trim(s)|..];
  }

  /** Text without white space at its ends stays as it is. */
  lemma TrimKeeps(s: string)
    requires s != "" && !IsSpace(s[0]) && !IsSpace(s[|s| - 1])
    ensures Trim(s) == s
  {
  }

  predicate Blank(s: string) {
    Trim(s) == ""
  }

  /** A text is blank if and only if it is all white space. */
  lemma BlankExactlyWhen(s: string)
    ensures Blank(s) <==> AllSpace(s)
  {
    hide IsSpace;
    var from, to := TrimIsASlice(s);
    if Blank(s) {
      assert s == s[..from] + s[to..];
    } else {
      assert s[from] == Trim(s)[0];
    }
  }
}
