/** White space and trimming, by Unicode scalar values. */
module Text {

  /** The characters Unicode calls White_Space. */
  predicate IsWhite(c: char) {
    var u := c as int;
    || 9 <= u <= 13 || u == 0x20 || u == 0x85 || u == 0xA0 || u == 0x1680 || 0x2000 <= u <= 0x200A
    || u == 0x2028 || u == 0x2029 || u == 0x202F || u == 0x205F || u == 0x3000
  }

  /** One by one: tab to carriage return, space, next line, no-break space, ogham space, the eleven from en quad to
      hair space, line and paragraph separator, narrow no-break, mathematical and ideographic space. */
  lemma WhiteIs(c: char)
    ensures IsWhite(c) <==>
              c in ['\U{0009}', '\U{000A}', '\U{000B}', '\U{000C}', '\U{000D}', '\U{0020}', '\U{0085}', '\U{00A0}', '\U{1680}',
                    '\U{2000}', '\U{2001}', '\U{2002}', '\U{2003}', '\U{2004}', '\U{2005}', '\U{2006}', '\U{2007}', '\U{2008}',
                    '\U{2009}', '\U{200A}', '\U{2028}', '\U{2029}', '\U{202F}', '\U{205F}', '\U{3000}']
  {
  }

  function TrimStart(s: string): string {
    if s != "" && IsWhite(s[0]) then TrimStart(s[1..]) else s
  }

  function TrimEnd(s: string): string {
    if s != "" && IsWhite(s[|s| - 1]) then TrimEnd(s[..|s| - 1]) else s
  }

  function Trim(s: string): string {
    TrimEnd(TrimStart(s))
  }

  predicate AllWhite(s: string) {
    forall i :: 0 <= i < |s| ==> IsWhite(s[i])
  }

  lemma {:induction false} TrimStartCuts(s: string) returns (cut: string)
    ensures s == cut + TrimStart(s) && AllWhite(cut)
    ensures TrimStart(s) == "" || !IsWhite(TrimStart(s)[0])
  {
    if s != "" && IsWhite(s[0]) {
      var rest := TrimStartCuts(s[1..]);
      cut := [s[0]] + rest;
      assert s == [s[0]] + s[1..];
    } else {
      cut := "";
    }
  }

  lemma {:induction false} TrimEndCuts(s: string) returns (cut: string)
    ensures s == TrimEnd(s) + cut && AllWhite(cut)
    ensures TrimEnd(s) == "" || !IsWhite(TrimEnd(s)[|TrimEnd(s)| - 1])
  {
    if s != "" && IsWhite(s[|s| - 1]) {
      var rest := TrimEndCuts(s[..|s| - 1]);
      cut := rest + [s[|s| - 1]];
      assert s == s[..|s| - 1] + [s[|s| - 1]];
    } else {
      cut := "";
    }
  }

  /** Trimming cuts white space off both ends and leaves none there. */
  lemma TrimCuts(s: string) returns (before: string, after: string)
    ensures s == before + Trim(s) + after && AllWhite(before) && AllWhite(after)
    ensures Trim(s) == "" || (!IsWhite(Trim(s)[0]) && !IsWhite(Trim(s)[|Trim(s)| - 1]))
  {
    before := TrimStartCuts(s);
    after := TrimEndCuts(TrimStart(s));
  }
}
